/*
 * Model of the PIC32MX PAL low level driver's pad-mode programmer,
 * `_pal_lld_setgroupmode` in os/hal/platforms/MIPS-PIC32MX/pal_lld.c.
 *
 * A port owns three 32-bit configuration registers: ODC (open-drain control,
 * 1 = open drain), ANSEL (analog select, 1 = analog) and TRIS (direction,
 * 1 = input). Devices built with `_AD1PCFG_PCFG_POSITION` defined have no
 * ANSEL; they use the global AD1PCFG register instead, whose polarity is
 * inverted (1 = digital).
 *
 * Every write goes through the PIC32 SET/CLR alias registers: writing `m`
 * to `reg.set` turns on the bits of `m`, writing `m` to `reg.clear` turns
 * them off, and no other bit changes.
 *
 * A 32-bit register word or mask is represented by the set of its bit
 * positions that hold 1 (`set<Pin>`), so the SET alias is set union and
 * the CLR alias is set difference.
 *
 * The function is described twice: as the program of alias writes that
 * the `switch` issues (`Writes`, replayed by `Replay`), and pad by pad
 * (`Target`); the lemmas connect the two. Class `Port` and method
 * `SetGroupMode` are the imperative driver code, proved to perform exactly
 * the writes of `Writes`.
 */
module PalLld {

  datatype Option<+T> = None | Some(value: T)

  /** The pad modes the driver accepts; any other `iomode_t` value is `Other`. */
  datatype Mode = Output | OutputOpenDrain | Input | InputAnalog | Other(code: int)

  predicate Supported(mode: Mode) {
    !mode.Other?
  }

  /** The build switch the function depends on: whether `_AD1PCFG_PCFG_POSITION` is defined. */
  datatype Build = AnselBuild | Ad1pcfgBuild

  /** A bit position of a 32-bit port register, that is, one pad of the port. */
  type Pin = i: int | 0 <= i < 32

  /** The registers the function can write. */
  datatype Reg = Odc | Ansel | Ad1pcfg | Tris

  /** One register write: `reg.set = mask` or `reg.clear = mask`. */
  datatype Write = SetBits(reg: Reg, mask: set<Pin>) | ClearBits(reg: Reg, mask: set<Pin>)

  /** The contents of the registers a call can change. */
  datatype Regs = Regs(odc: set<Pin>, ansel: set<Pin>, tris: set<Pin>, ad1pcfg: set<Pin>)

  /** The outcome of a call: it completed, or it reached `chDbgPanic`. */
  datatype Outcome = Done | Panic

  // ------------------------------------------------------------------
  // The SET/CLR alias semantics and replaying writes.

  function Read(r: Regs, reg: Reg): set<Pin> {
    match reg
    case Odc => r.odc
    case Ansel => r.ansel
    case Tris => r.tris
    case Ad1pcfg => r.ad1pcfg
  }

  function Put(r: Regs, reg: Reg, v: set<Pin>): Regs {
    match reg
    case Odc => r.(odc := v)
    case Ansel => r.(ansel := v)
    case Tris => r.(tris := v)
    case Ad1pcfg => r.(ad1pcfg := v)
  }

  /** The effect of one write through a SET/CLR alias. */
  function Apply(r: Regs, w: Write): (s: Regs)
    // the masked bits of the target are all on (SET) or all off (CLR) ...
    ensures Read(s, w.reg) * w.mask == (if w.SetBits? then w.mask else {})
    // ... its other bits keep their value ...
    ensures Read(s, w.reg) - w.mask == Read(r, w.reg) - w.mask
    // ... and no other register changes
    ensures forall reg :: reg != w.reg ==> Read(s, reg) == Read(r, reg)
  {
    match w
    case SetBits(reg, m) => Put(r, reg, Read(r, reg) + m)
    case ClearBits(reg, m) => Put(r, reg, Read(r, reg) - m)
  }

  /** The bits of `reg` that some write of `ws` names. */
  function Touched(ws: seq<Write>, reg: Reg): set<Pin> {
    if ws == [] then {}
    else (if ws[0].reg == reg then ws[0].mask else {}) + Touched(ws[1..], reg)
  }

  /** The registers after issuing the writes `ws`, first one first. */
  function Replay(r: Regs, ws: seq<Write>): Regs
    decreases ws
  {
    if ws == [] then r else Replay(Apply(r, ws[0]), ws[1..])
  }

  // ------------------------------------------------------------------
  // The `switch` of `_pal_lld_setgroupmode` as a program of writes.

  /** The write that turns the analog function off on `mask` in the given build. */
  function AnalogOff(build: Build, mask: set<Pin>): Write {
    match build
    case AnselBuild => ClearBits(Ansel, mask)    // port->ansel.clear
    case Ad1pcfgBuild => SetBits(Ad1pcfg, mask)  // AD1PCFGSET
  }

  /** The write that turns the analog function on on `mask` in the given build. */
  function AnalogOn(build: Build, mask: set<Pin>): Write {
    match build
    case AnselBuild => SetBits(Ansel, mask)        // port->ansel.set
    case Ad1pcfgBuild => ClearBits(Ad1pcfg, mask)  // AD1PCFGCLR
  }

  /** The writes of the `PAL_MODE_OUTPUT` branch. */
  function OutputBranch(build: Build, mask: set<Pin>): seq<Write> {
    [AnalogOff(build, mask), ClearBits(Tris, mask)]
  }

  /**
   * The writes the `switch` issues for `mode`, in program order, or None
   * when `mode` reaches the `default:` branch and `chDbgPanic`.
   * OUTPUT_OPEN_DRAIN has no `break`: it falls through into OUTPUT.
   */
  function Writes(build: Build, mode: Mode, mask: set<Pin>): (p: Option<seq<Write>>)
    ensures p.None? <==> !Supported(mode)
    // every write of a supported mode is confined to `mask`
    ensures p.Some? ==> forall k :: 0 <= k < |p.value| ==> p.value[k].mask == mask
    // the direction register is written exactly once, and last
    ensures p.Some? ==> |p.value| >= 2 && p.value[|p.value| - 1].reg == Tris
    ensures p.Some? ==> forall k :: 0 <= k < |p.value| - 1 ==> p.value[k].reg != Tris
    // the direction becomes input exactly in the input modes
    ensures p.Some? ==> (p.value[|p.value| - 1].SetBits? <==> mode.Input? || mode.InputAnalog?)
    // only OUTPUT_OPEN_DRAIN writes ODC, and only to set it
    ensures p.Some? ==> forall k :: 0 <= k < |p.value| && p.value[k].reg == Odc ==>
                          mode.OutputOpenDrain? && p.value[k].SetBits?
  {
    match mode
    case OutputOpenDrain => Some([SetBits(Odc, mask)] + OutputBranch(build, mask))
    case Output => Some(OutputBranch(build, mask))
    case Input => Some([AnalogOff(build, mask), SetBits(Tris, mask)])
    case InputAnalog => Some([AnalogOn(build, mask), SetBits(Tris, mask)])
    case Other(_) => None
  }

  /** The registers after a call, or None when the call panics. */
  function Run(r: Regs, build: Build, mode: Mode, mask: set<Pin>): (o: Option<Regs>)
    ensures o.None? <==> !Supported(mode)
  {
    match Writes(build, mode, mask)
    case None => None
    case Some(p) => Some(Replay(r, p))
  }

  // ------------------------------------------------------------------
  // The same function pad by pad.

  /** The configuration of one pad. */
  datatype Pad = Pad(openDrain: bool, analog: bool, input: bool)

  /**
   * Pad `i` as the registers describe it; AD1PCFG says "digital" where ANSEL
   * says "analog". In the AD1PCFG build, bit `i` of AD1PCFG is read as the
   * analog state of pad `i` of the port at hand, by convention.
   */
  function PadOf(r: Regs, build: Build, i: Pin): Pad {
    Pad(i in r.odc,
        if build == AnselBuild then i in r.ansel else i !in r.ad1pcfg,
        i in r.tris)
  }

  /** The configuration a pad of the group gets in `mode`, or None when `mode` is not supported. */
  function Target(mode: Mode, p: Pad): Option<Pad> {
    match mode
    case Output => Some(Pad(p.openDrain, false, false))
    case OutputOpenDrain => Some(Pad(true, false, false))
    case Input => Some(Pad(p.openDrain, false, true))
    case InputAnalog => Some(Pad(p.openDrain, true, true))
    case Other(_) => None
  }

  // ------------------------------------------------------------------
  // Lemmas about replaying writes.

  /** Bits that no write of `ws` names keep their value, in every register. */
  lemma {:induction false} ReplayFrame(r: Regs, ws: seq<Write>, reg: Reg)
    decreases ws
    ensures Read(Replay(r, ws), reg) - Touched(ws, reg) == Read(r, reg) - Touched(ws, reg)
  {
    if ws != [] {
      var r1 := Apply(r, ws[0]);
      var own := if ws[0].reg == reg then ws[0].mask else {};
      var rest := Touched(ws[1..], reg);
      ReplayFrame(r1, ws[1..], reg);
      assert Read(r1, reg) - own == Read(r, reg) - own;
      assert Touched(ws, reg) == own + rest;
      calc {
        Read(Replay(r, ws), reg) - (own + rest);
        (Read(Replay(r1, ws[1..]), reg) - rest) - own;
        (Read(r1, reg) - rest) - own;
        (Read(r1, reg) - own) - rest;
        (Read(r, reg) - own) - rest;
        Read(r, reg) - (own + rest);
      }
    }
  }

  lemma {:induction false} ReplayConcat(r: Regs, a: seq<Write>, b: seq<Write>)
    decreases a
    ensures Replay(r, a + b) == Replay(Replay(r, a), b)
  {
    if a == [] {
      assert a + b == b;
    } else {
      assert (a + b)[0] == a[0];
      assert (a + b)[1..] == a[1..] + b;
      ReplayConcat(Apply(r, a[0]), a[1..], b);
    }
  }

  lemma ReplayOne(r: Regs, w: Write)
    ensures Replay(r, [w]) == Apply(r, w)
  {
  }

  /** Issuing one more write applies it to the registers the earlier writes left. */
  lemma ReplaySnoc(r: Regs, ws: seq<Write>, w: Write)
    ensures Replay(r, ws + [w]) == Apply(Replay(r, ws), w)
  {
    ReplayConcat(r, ws, [w]);
    ReplayOne(Replay(r, ws), w);
  }

  lemma ReplayTwo(r: Regs, a: Write, b: Write)
    ensures Replay(r, [a, b]) == Apply(Apply(r, a), b)
  {
    assert [a, b][1..] == [b];
    ReplayOne(Apply(r, a), b);
  }

  /** A register that no write of `ws` targets is not touched. */
  lemma {:induction false} TouchedNothing(ws: seq<Write>, reg: Reg)
    requires forall k :: 0 <= k < |ws| ==> ws[k].reg != reg
    ensures Touched(ws, reg) == {}
  {
    if ws != [] {
      TouchedNothing(ws[1..], reg);
    }
  }

  /** Writes that all carry `mask` touch no bit outside `mask`. */
  lemma {:induction false} TouchedWithin(ws: seq<Write>, reg: Reg, mask: set<Pin>)
    requires forall k :: 0 <= k < |ws| ==> ws[k].mask == mask
    ensures Touched(ws, reg) <= mask
  {
    if ws != [] {
      TouchedWithin(ws[1..], reg, mask);
    }
  }

  // ------------------------------------------------------------------
  // What each mode does to the registers.

  /** PAL_MODE_OUTPUT: digital output on the mask; ODC is left alone. */
  lemma OutputEffect(r: Regs, build: Build, mask: set<Pin>)
    ensures Run(r, build, Output, mask).Some?
    ensures var s := Run(r, build, Output, mask).value;
      && s.odc == r.odc
      && s.tris == r.tris - mask
      && (build == AnselBuild ==> s.ansel == r.ansel - mask && s.ad1pcfg == r.ad1pcfg)
      && (build == Ad1pcfgBuild ==> s.ad1pcfg == r.ad1pcfg + mask && s.ansel == r.ansel)
  {
    ReplayTwo(r, AnalogOff(build, mask), ClearBits(Tris, mask));
  }

  /**
   * PAL_MODE_OUTPUT_OPENDRAIN sets ODC on the mask and then does exactly
   * what PAL_MODE_OUTPUT does (the fall-through).
   */
  lemma OpenDrainFallsThrough(r: Regs, build: Build, mask: set<Pin>)
    ensures Run(r, build, OutputOpenDrain, mask).Some?
    ensures var d := Run(r, build, OutputOpenDrain, mask).value;
            var o := Run(r, build, Output, mask).value;
      && d.odc == r.odc + mask
      && d.ansel == o.ansel && d.tris == o.tris && d.ad1pcfg == o.ad1pcfg
  {
    var r1 := Apply(r, SetBits(Odc, mask));
    ReplayConcat(r, [SetBits(Odc, mask)], OutputBranch(build, mask));
    ReplayOne(r, SetBits(Odc, mask));
    OutputEffect(r, build, mask);
    OutputEffect(r1, build, mask);
  }

  /** PAL_MODE_INPUT: digital input on the mask; ODC is left alone. */
  lemma InputEffect(r: Regs, build: Build, mask: set<Pin>)
    ensures Run(r, build, Input, mask).Some?
    ensures var s := Run(r, build, Input, mask).value;
      && s.odc == r.odc
      && s.tris == r.tris + mask
      && (build == AnselBuild ==> s.ansel == r.ansel - mask && s.ad1pcfg == r.ad1pcfg)
      && (build == Ad1pcfgBuild ==> s.ad1pcfg == r.ad1pcfg + mask && s.ansel == r.ansel)
  {
    ReplayTwo(r, AnalogOff(build, mask), SetBits(Tris, mask));
  }

  /** PAL_MODE_INPUT_ANALOG: analog input on the mask; ODC is left alone. */
  lemma InputAnalogEffect(r: Regs, build: Build, mask: set<Pin>)
    ensures Run(r, build, InputAnalog, mask).Some?
    ensures var s := Run(r, build, InputAnalog, mask).value;
      && s.odc == r.odc
      && s.tris == r.tris + mask
      && (build == AnselBuild ==> s.ansel == r.ansel + mask && s.ad1pcfg == r.ad1pcfg)
      && (build == Ad1pcfgBuild ==> s.ad1pcfg == r.ad1pcfg - mask && s.ansel == r.ansel)
  {
    ReplayTwo(r, AnalogOn(build, mask), SetBits(Tris, mask));
  }

  /** Every pad of the group ends in the configuration `Target` gives; every other pad is unchanged. */
  lemma PinwiseEffect(r: Regs, build: Build, mode: Mode, mask: set<Pin>, i: Pin)
    ensures Run(r, build, mode, mask).None? <==> Target(mode, PadOf(r, build, i)).None?
    ensures Run(r, build, mode, mask).Some? ==>
      PadOf(Run(r, build, mode, mask).value, build, i)
        == if i in mask then Target(mode, PadOf(r, build, i)).value else PadOf(r, build, i)
  {
    match mode
    case Output => OutputEffect(r, build, mask);
    case OutputOpenDrain => OutputEffect(r, build, mask); OpenDrainFallsThrough(r, build, mask);
    case Input => InputEffect(r, build, mask);
    case InputAnalog => InputAnalogEffect(r, build, mask);
    case Other(_) =>
  }

  // ------------------------------------------------------------------
  // Properties of the whole call.

  /** No register changes outside the mask. */
  lemma MaskIsolation(r: Regs, build: Build, mode: Mode, mask: set<Pin>, reg: Reg)
    ensures Run(r, build, mode, mask).Some? ==>
      Read(Run(r, build, mode, mask).value, reg) - mask == Read(r, reg) - mask
  {
    if Supported(mode) {
      var p := Writes(build, mode, mask).value;
      ReplayFrame(r, p, reg);
      TouchedWithin(p, reg, mask);
      var t := Touched(p, reg);
      calc {
        Read(Replay(r, p), reg) - mask;
        (Read(Replay(r, p), reg) - t) - mask;
        (Read(r, reg) - t) - mask;
        Read(r, reg) - mask;
      }
    }
  }

  /**
   * TRIS is written once, by the last write: until then the direction is
   * the old one, and every other register already holds its final value
   * when the direction changes.
   */
  lemma DirectionWrittenLast(r: Regs, build: Build, mode: Mode, mask: set<Pin>)
    ensures Writes(build, mode, mask).Some? ==>
      var p := Writes(build, mode, mask).value;
      var s := Replay(r, p);
      var q := Replay(r, p[..|p| - 1]);
      && (forall k :: 0 <= k < |p| ==> Replay(r, p[..k]).tris == r.tris)
      && q.odc == s.odc && q.ansel == s.ansel && q.ad1pcfg == s.ad1pcfg
  {
    if Supported(mode) {
      var p := Writes(build, mode, mask).value;
      var n := |p|;
      forall k | 0 <= k < n
        ensures Replay(r, p[..k]).tris == r.tris
      {
        TouchedNothing(p[..k], Tris);
        ReplayFrame(r, p[..k], Tris);
        assert Read(Replay(r, p[..k]), Tris) - {} == Read(Replay(r, p[..k]), Tris);
      }
      assert p == p[..n - 1] + [p[n - 1]];
      ReplayConcat(r, p[..n - 1], [p[n - 1]]);
      ReplayOne(Replay(r, p[..n - 1]), p[n - 1]);
    }
  }

  /**
   * AD1PCFG has the opposite polarity to ANSEL: from any starting
   * registers, after the same call, a pad of the group is 1 in AD1PCFG
   * exactly when it is 0 in ANSEL, that is, when the mode is digital.
   */
  lemma PolarityInverted(ra: Regs, rb: Regs, mode: Mode, mask: set<Pin>, i: Pin)
    requires i in mask
    ensures Run(ra, AnselBuild, mode, mask).Some? <==> Run(rb, Ad1pcfgBuild, mode, mask).Some?
    ensures Run(ra, AnselBuild, mode, mask).Some? ==>
      && (i in Run(ra, AnselBuild, mode, mask).value.ansel <==> mode == InputAnalog)
      && (i in Run(rb, Ad1pcfgBuild, mode, mask).value.ad1pcfg <==> mode != InputAnalog)
  {
    match mode
    case Output => OutputEffect(ra, AnselBuild, mask); OutputEffect(rb, Ad1pcfgBuild, mask);
    case OutputOpenDrain =>
      OutputEffect(ra, AnselBuild, mask); OpenDrainFallsThrough(ra, AnselBuild, mask);
      OutputEffect(rb, Ad1pcfgBuild, mask); OpenDrainFallsThrough(rb, Ad1pcfgBuild, mask);
    case Input => InputEffect(ra, AnselBuild, mask); InputEffect(rb, Ad1pcfgBuild, mask);
    case InputAnalog => InputAnalogEffect(ra, AnselBuild, mask); InputAnalogEffect(rb, Ad1pcfgBuild, mask);
    case Other(_) =>
  }

  /**
   * AD1PCFG is one device-wide register, and the function stores to it in
   * the same way whatever port it is given. In the AD1PCFG build, its new
   * value depends only on its old value, the mode and the mask, and not on
   * the registers of the port passed. The masked bit positions end 1 for the
   * digital modes and 0 for INPUT_ANALOG, so the call can change the analog
   * state of pins outside the port passed.
   */
  lemma Ad1pcfgIgnoresPort(ra: Regs, rb: Regs, mode: Mode, mask: set<Pin>)
    requires ra.ad1pcfg == rb.ad1pcfg
    ensures Run(ra, Ad1pcfgBuild, mode, mask).Some? ==>
      var shared := Run(ra, Ad1pcfgBuild, mode, mask).value.ad1pcfg;
      && shared == Run(rb, Ad1pcfgBuild, mode, mask).value.ad1pcfg
      && shared * mask == (if mode == InputAnalog then {} else mask)
      && shared - mask == ra.ad1pcfg - mask
  {
    match mode
    case Output => OutputEffect(ra, Ad1pcfgBuild, mask); OutputEffect(rb, Ad1pcfgBuild, mask);
    case OutputOpenDrain =>
      OutputEffect(ra, Ad1pcfgBuild, mask); OpenDrainFallsThrough(ra, Ad1pcfgBuild, mask);
      OutputEffect(rb, Ad1pcfgBuild, mask); OpenDrainFallsThrough(rb, Ad1pcfgBuild, mask);
    case Input => InputEffect(ra, Ad1pcfgBuild, mask); InputEffect(rb, Ad1pcfgBuild, mask);
    case InputAnalog => InputAnalogEffect(ra, Ad1pcfgBuild, mask); InputAnalogEffect(rb, Ad1pcfgBuild, mask);
    case Other(_) =>
  }

  /** Programming a group twice with the same mode leaves the registers as programming it once. */
  lemma Idempotent(r: Regs, build: Build, mode: Mode, mask: set<Pin>)
    ensures Run(r, build, mode, mask).Some? ==>
      Run(Run(r, build, mode, mask).value, build, mode, mask) == Run(r, build, mode, mask)
  {
    if Supported(mode) {
      var s := Run(r, build, mode, mask).value;
      match mode {
        case Output => OutputEffect(r, build, mask); OutputEffect(s, build, mask);
        case OutputOpenDrain =>
          OutputEffect(r, build, mask); OpenDrainFallsThrough(r, build, mask);
          OutputEffect(s, build, mask); OpenDrainFallsThrough(s, build, mask);
        case Input => InputEffect(r, build, mask); InputEffect(s, build, mask);
        case InputAnalog => InputAnalogEffect(r, build, mask); InputAnalogEffect(s, build, mask);
      }
      var s2 := Run(s, build, mode, mask).value;
      assert s2.odc == s.odc && s2.ansel == s.ansel && s2.tris == s.tris && s2.ad1pcfg == s.ad1pcfg;
    }
  }

  // ------------------------------------------------------------------
  // The driver code: registers updated in place.

  /** The stores made to the alias registers so far, in order (a ghost record of the bus). */
  class Bus {
    ghost var log: seq<Write>

    constructor()
      ensures log == []
    {
      log := [];
    }
  }

  /**
   * One PIC32 configuration register with its SET and CLR aliases. A store
   * to an alias changes the register itself and is recorded on `bus`.
   */
  class AliasedRegister {
    const id: Reg
    const bus: Bus
    var bits: set<Pin>

    constructor(id: Reg, bus: Bus, init: set<Pin>)
      ensures this.id == id && this.bus == bus && bits == init
    {
      this.id := id;
      this.bus := bus;
      bits := init;
    }

    /** A store of `mask` to the SET alias. */
    method Set(mask: set<Pin>)
      modifies this, bus
      ensures bits == old(bits) + mask
      ensures bus.log == old(bus.log) + [SetBits(id, mask)]
    {
      bits := bits + mask;
      bus.log := bus.log + [SetBits(id, mask)];
    }

    /** A store of `mask` to the CLR alias. */
    method Clear(mask: set<Pin>)
      modifies this, bus
      ensures bits == old(bits) - mask
      ensures bus.log == old(bus.log) + [ClearBits(id, mask)]
    {
      bits := bits - mask;
      bus.log := bus.log + [ClearBits(id, mask)];
    }
  }

  /** The register block of one port; an `ioportid_t` points to one. */
  class Port {
    const odc: AliasedRegister
    const ansel: AliasedRegister
    const tris: AliasedRegister

    constructor(bus: Bus, odc0: set<Pin>, ansel0: set<Pin>, tris0: set<Pin>)
      ensures fresh(odc) && fresh(ansel) && fresh(tris)
      ensures odc.id == Odc && ansel.id == Ansel && tris.id == Tris
      ensures odc.bus == bus && ansel.bus == bus && tris.bus == bus
      ensures odc.bits == odc0 && ansel.bits == ansel0 && tris.bits == tris0
    {
      odc := new AliasedRegister(Odc, bus, odc0);
      ansel := new AliasedRegister(Ansel, bus, ansel0);
      tris := new AliasedRegister(Tris, bus, tris0);
    }
  }

  /**
   * The port's registers and AD1PCFG are the registers their names say
   * (so four different objects), and their stores go to one bus.
   */
  predicate Wired(port: Port, ad1pcfg: AliasedRegister) {
    && port.odc.id == Odc && port.ansel.id == Ansel && port.tris.id == Tris && ad1pcfg.id == Ad1pcfg
    && port.ansel.bus == port.odc.bus && port.tris.bus == port.odc.bus && ad1pcfg.bus == port.odc.bus
  }

  /** The registers a call can change, as values. */
  function View(port: Port, ad1pcfg: AliasedRegister): Regs
    reads port.odc, port.ansel, port.tris, ad1pcfg
  {
    Regs(port.odc.bits, port.ansel.bits, port.tris.bits, ad1pcfg.bits)
  }

  /**
   * `_pal_lld_setgroupmode(port, mask, mode)`. `ad1pcfg` is the global
   * AD1PCFG register, used by `Ad1pcfgBuild` only. The stores the call
   * makes, in order, are the ones appended to the bus log.
   */
  method SetGroupMode(port: Port, ad1pcfg: AliasedRegister, build: Build, mask: set<Pin>, mode: Mode)
      returns (outcome: Outcome)
    requires Wired(port, ad1pcfg)
    modifies port.odc, port.ansel, port.tris, ad1pcfg, port.odc.bus
    ensures outcome == Panic <==> !Supported(mode)
    ensures outcome == Panic ==> unchanged(port.odc, port.ansel, port.tris, ad1pcfg, port.odc.bus)
    ensures outcome == Done ==> port.odc.bus.log == old(port.odc.bus.log) + Writes(build, mode, mask).value
    ensures outcome == Done ==> View(port, ad1pcfg) == Run(old(View(port, ad1pcfg)), build, mode, mask).value
  {
    ghost var r := View(port, ad1pcfg);
    ghost var bus := port.odc.bus;
    ghost var log0 := bus.log;
    if mode.Other? {
      // default: chDbgPanic
      return Panic;
    }
    ghost var trace: seq<Write> := [];
    if mode.OutputOpenDrain? {
      port.odc.Set(mask);
      trace := [SetBits(Odc, mask)];
      ReplayOne(r, SetBits(Odc, mask));
    }
    if mode.OutputOpenDrain? || mode.Output? {
      // OUTPUT_OPEN_DRAIN falls through into OUTPUT
      if build == Ad1pcfgBuild {
        ad1pcfg.Set(mask);
      } else {
        port.ansel.Clear(mask);
      }
      ReplaySnoc(r, trace, AnalogOff(build, mask));
      trace := trace + [AnalogOff(build, mask)];
      assert bus.log == log0 + trace;
      port.tris.Clear(mask);
      ReplaySnoc(r, trace, ClearBits(Tris, mask));
      trace := trace + [ClearBits(Tris, mask)];
      assert bus.log == log0 + trace;
      if mode.OutputOpenDrain? {
        assert trace == [SetBits(Odc, mask)] + OutputBranch(build, mask);
      } else {
        assert trace == OutputBranch(build, mask);
      }
    } else if mode.Input? {
      if build == Ad1pcfgBuild {
        ad1pcfg.Set(mask);
      } else {
        port.ansel.Clear(mask);
      }
      trace := [AnalogOff(build, mask)];
      ReplayOne(r, AnalogOff(build, mask));
      port.tris.Set(mask);
      ReplaySnoc(r, trace, SetBits(Tris, mask));
      trace := trace + [SetBits(Tris, mask)];
      assert bus.log == log0 + trace;
      assert trace == [AnalogOff(build, mask), SetBits(Tris, mask)];
    } else {
      if build == Ad1pcfgBuild {
        ad1pcfg.Clear(mask);
      } else {
        port.ansel.Set(mask);
      }
      trace := [AnalogOn(build, mask)];
      ReplayOne(r, AnalogOn(build, mask));
      port.tris.Set(mask);
      ReplaySnoc(r, trace, SetBits(Tris, mask));
      trace := trace + [SetBits(Tris, mask)];
      assert bus.log == log0 + trace;
      assert trace == [AnalogOn(build, mask), SetBits(Tris, mask)];
    }
    outcome := Done;
  }
}
