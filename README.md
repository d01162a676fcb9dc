# PIC32MX PAL pad-mode programmer in Dafny

This project models `_pal_lld_setgroupmode`, the function of the ChibiOS
PIC32MX PAL low level driver that puts a group of pads of one I/O port into a
pad mode, and proves what the function does to the port's configuration
registers.

The function takes a port, a mask of pads and a mode. Each mode takes one
branch of a `switch`:

- `PAL_MODE_OUTPUT`: turns the analog function off on the masked pads, then
  makes them outputs.
- `PAL_MODE_OUTPUT_OPENDRAIN`: first sets the open-drain bits (ODC). It has no
  `break`, so it then falls through into the OUTPUT branch.
- `PAL_MODE_INPUT`: turns the analog function off, then makes the pads inputs.
- `PAL_MODE_INPUT_ANALOG`: turns the analog function on, then makes the pads
  inputs.
- Any other mode reaches `chDbgPanic`.

The analog function lives in one of two places, chosen at build time:
- the port's ANSEL register (1 = analog);
- on devices that define `_AD1PCFG_PCFG_POSITION`, the global AD1PCFG
  register, whose polarity is inverted (1 = digital).

The model has two layers, both in `pal_lld.dfy` (module `PalLld`):

- A value layer:
  - `Write` is one store to a SET or CLR alias register.
  - `Apply` gives the alias semantics: SET turns the masked bits on, CLR turns
    them off, and nothing else changes.
  - `Writes` is the program of stores each branch of the `switch` issues, in
    order. It returns `None` for the panic branch.
  - `Replay` and `Run` give the registers after those stores.
  - An independent per-pad description, `Pad`, `PadOf` and `Target`, gives the
    configuration each mode promises a pad. The lemmas connect the two
    descriptions.
- An imperative layer:
  - Class `AliasedRegister` is one register with its SET/CLR aliases. Every
    store through an alias is appended to the ghost log of a shared `Bus`.
  - Class `Port` is a port's register block.
  - Method `SetGroupMode` mirrors the `switch`, including the fall-through. It
    returns `Panic` for unsupported modes, and then stores nothing. Otherwise
    it is proved to append exactly the stores of `Writes` to the bus log, in
    that order, and to leave the registers as `Run` gives them.

A 32-bit register word, and a mask, is represented by the set of its bit
positions that hold 1 (`set<Pin>`, with `Pin` ranging over 0..31). Storing a
mask to a SET alias is then set union, and storing it to a CLR alias is set
difference. The build switch `_AD1PCFG_PCFG_POSITION` is the parameter
`build: Build`.

The reprogramming is not atomic: the function makes two or three separate
stores, and `DirectionWrittenLast` describes the intermediate states. The
direction register (TRIS) is written last, and before that store the old
direction is still in place.

Some consequences of the code are worth stating:
- `PAL_MODE_OUTPUT` never clears ODC, so a pad that was open-drain stays
  open-drain when reprogrammed as a push-pull output (`OutputEffect`,
  `PinwiseEffect`).
- In the AD1PCFG build, the input modes and output modes *set* AD1PCFG
  (digital), and only INPUT_ANALOG clears it (`PolarityInverted`).
- AD1PCFG is one device-wide register. In the AD1PCFG build the store goes to
  the same AD1PCFG bit positions whatever port is passed, so it can change the
  analog state of pins outside `port` (`Ad1pcfgIgnoresPort`). The registers of
  other ports are not written: `SetGroupMode` may modify only the given port's
  ODC, ANSEL and TRIS, AD1PCFG and the bus log.

## Model

| member | source | states |
|---|---|---|
| PalLld.Apply | os/hal/platforms/MIPS-PIC32MX/pal_lld.c:74-97 | a store through a SET (CLR) alias makes every masked bit of its register 1 (0), keeps the register's other bits and changes no other register |
| PalLld.Writes | os/hal/platforms/MIPS-PIC32MX/pal_lld.c:68-100 | no stores (panic) exactly for unsupported modes; every store uses the caller's mask; TRIS is written exactly once and last; TRIS is set exactly in the input modes; only OUTPUT_OPEN_DRAIN writes ODC, and only through SET |
| PalLld.Run | os/hal/platforms/MIPS-PIC32MX/pal_lld.c:68-100 | the call has a result (the registers after it) exactly when the mode is supported, and panics otherwise |
| PalLld.OutputEffect | os/hal/platforms/MIPS-PIC32MX/pal_lld.c:75-82 | OUTPUT clears TRIS on the mask, clears ANSEL on the mask (ANSEL build) or sets AD1PCFG on the mask (AD1PCFG build), and leaves ODC and the other build's register unchanged |
| PalLld.OpenDrainFallsThrough | os/hal/platforms/MIPS-PIC32MX/pal_lld.c:73-82 | OUTPUT_OPEN_DRAIN sets ODC on the mask and leaves ANSEL, TRIS and AD1PCFG exactly as OUTPUT does |
| PalLld.InputEffect | os/hal/platforms/MIPS-PIC32MX/pal_lld.c:83-90 | INPUT sets TRIS on the mask, clears ANSEL (ANSEL build) or sets AD1PCFG (AD1PCFG build) on the mask, and leaves ODC unchanged |
| PalLld.InputAnalogEffect | os/hal/platforms/MIPS-PIC32MX/pal_lld.c:91-98 | INPUT_ANALOG sets TRIS on the mask, sets ANSEL (ANSEL build) or clears AD1PCFG (AD1PCFG build) on the mask, and leaves ODC unchanged |
| PalLld.PinwiseEffect | os/hal/platforms/MIPS-PIC32MX/pal_lld.c:69-98 | the call panics exactly when the per-pad table has no entry for the mode; otherwise every masked pad ends in the configuration the table gives for the mode and every other pad of that port is unchanged, in both builds (see Left out for AD1PCFG) |
| PalLld.MaskIsolation | os/hal/platforms/MIPS-PIC32MX/pal_lld.c:73-98 | for every supported mode and every register, the bits outside the mask are unchanged |
| PalLld.DirectionWrittenLast | os/hal/platforms/MIPS-PIC32MX/pal_lld.c:73-98 | TRIS keeps its old value after every proper prefix of the stores, and ODC, ANSEL and AD1PCFG already hold their final values before the TRIS store |
| PalLld.PolarityInverted | os/hal/platforms/MIPS-PIC32MX/pal_lld.c:76-96 | for a masked pad, after the same call, its AD1PCFG bit (AD1PCFG build) is 1 exactly when its ANSEL bit (ANSEL build) would be 0, that is, exactly when the mode is not INPUT_ANALOG |
| PalLld.Ad1pcfgIgnoresPort | os/hal/platforms/MIPS-PIC32MX/pal_lld.c:76-96 | in the AD1PCFG build, the new AD1PCFG depends only on the old AD1PCFG, the mode and the mask, not on the port passed; its masked bits end 1 for the three digital modes and 0 for INPUT_ANALOG, and its other bits are unchanged |
| PalLld.Idempotent | os/hal/platforms/MIPS-PIC32MX/pal_lld.c:73-98 | programming a group a second time with the same mode changes nothing |
| PalLld.AliasedRegister.Set | os/hal/platforms/MIPS-PIC32MX/pal_lld.c:74 | a store to the SET alias adds the mask's bits to the register and is recorded, as one SET store to that register, on the bus |
| PalLld.AliasedRegister.Clear | os/hal/platforms/MIPS-PIC32MX/pal_lld.c:79 | a store to the CLR alias removes the mask's bits from the register and is recorded, as one CLR store to that register, on the bus |
| PalLld.SetGroupMode | os/hal/platforms/MIPS-PIC32MX/pal_lld.c:68-100 | returns Panic exactly for unsupported modes, and then changes no register and stores nothing; otherwise the stores it makes, as recorded on the bus, are exactly those `Writes` lists, in that order (so TRIS is stored last), and the registers end as `Run` gives |

## Left out

- Register width and encoding: a 32-bit register word or mask is modelled as the set of its 1-bit positions, 0..31. This is the same information as the word. Bit-vector arithmetic itself is not modelled.
- PinwiseEffect: "every other pad is unchanged" covers the pads of the port passed in. In the AD1PCFG build the store to AD1PCFG ignores the port, so it can also change the analog state of pins outside that port; which pins those are is not modelled (see the next line). `Ad1pcfgIgnoresPort` states what the store does to AD1PCFG.
- PadOf: in the AD1PCFG build, bit i of AD1PCFG is read as the analog state of pad i of the port at hand. That is the model's own convention. Which pins each AD1PCFG bit actually controls (on PIC32MX parts, the ANx analog inputs, which sit on one port) is device data and is not part of this model.
- `PAL_MODE_*` numeric values: they are defined in a header that is not part of this model. Modes are a datatype, and every other `iomode_t` value is `Other(code)`.
- `chDbgPanic` belongs to the kernel. An unsupported mode is modelled as the outcome `Panic` with no register store; what the kernel does afterwards (halting) is not modelled.
- `volatile` access, bus ordering, and interrupts or other cores touching the same registers between the stores are not modelled. The stores are modelled as sequential and individually atomic.
- The preprocessor switch `_AD1PCFG_PCFG_POSITION` is a run-time parameter `build`. The ANSEL build never touches AD1PCFG, and the AD1PCFG build never touches the port's ANSEL. Both registers are always present in the model.
- The INV alias and the PORT/LAT data registers are not written by this function and are not modelled.
- os/hal/platforms/MIPS-PIC32MX/spi_lld.h and os/hal/platforms/MIPS-PIC32MX/eic_lld.h hold declarations only and are not part of this model, nor is board-level port initialisation.
