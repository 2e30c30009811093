// The playback control panel: the tick rate and speed read back from
// storage, the clamps applied when a slider is released, the status
// machine driven by the play/pause/stop buttons, and the guard on exporting
// a save state.
//
// `Number(x)` (None when the result is not finite) and `String(x)` are
// parameters; the command sink is a log of the commands it received.

module SimulationControls {
  import opened Wrappers
  import opened Json
  import Js
  import MemoryStorage
  import Zod
  import ProtocolSchema
  import SchemaFacts
  import opened Playback

  const TickRateKey: string := "hud:tickRate"
  const SpeedKey: string := "hud:speed"
  const DefaultTickRate: real := 30.0
  const DefaultSpeed: real := 1.0
  const InitialExportFilename: string := "save_0"

  /** What a controller may preset; each field is optional. */
  datatype InitialState = InitialState(status: Option<Status>, tickRate: Option<real>, speed: Option<real>)

  datatype Controller = Controller(initialState: Option<InitialState>, hasSink: bool)

  /** `raw ? Number(raw) : NaN` */
  function ParseStored(raw: Option<string>, number: string -> Option<real>): (r: Option<real>)
    ensures !TruthyString(raw) ==> r.None?
    ensures TruthyString(raw) ==> r == number(raw.value)
  {
    if TruthyString(raw) then number(raw.value) else None
  }

  /** `readInitialTickRate`: the stored rate iff it is finite and within [1, 100]; else 30. */
  function ReadInitialTickRate(raw: Option<string>, number: string -> Option<real>): (r: real)
    ensures 1.0 <= r <= 100.0
    ensures ParseStored(raw, number).Some? && 1.0 <= ParseStored(raw, number).value <= 100.0
      ==> r == ParseStored(raw, number).value
    ensures ParseStored(raw, number).None? || !(1.0 <= ParseStored(raw, number).value <= 100.0)
      ==> r == DefaultTickRate
  {
    var parsed := ParseStored(raw, number);
    if parsed.Some? && 1.0 <= parsed.value <= 100.0 then parsed.value else DefaultTickRate
  }

  /** `readInitialSpeed`: the stored speed iff it is finite and within [0.1, 10]; else 1.0. */
  function ReadInitialSpeed(raw: Option<string>, number: string -> Option<real>): (r: real)
    ensures 0.1 <= r <= 10.0
    ensures ParseStored(raw, number).Some? && 0.1 <= ParseStored(raw, number).value <= 10.0
      ==> r == ParseStored(raw, number).value
    ensures ParseStored(raw, number).None? || !(0.1 <= ParseStored(raw, number).value <= 10.0)
      ==> r == DefaultSpeed
  {
    var parsed := ParseStored(raw, number);
    if parsed.Some? && 0.1 <= parsed.value <= 10.0 then parsed.value else DefaultSpeed
  }

  /** `controller?.initialState` */
  function Preset(controller: Option<Controller>): Option<InitialState>
  {
    if controller.Some? then controller.value.initialState else None
  }

  /** Status precedence: the global status, then the controller's, then idle. */
  function InitialStatus(global: Option<Status>, controller: Option<Controller>): (r: Status)
    ensures global.Some? ==> r == global.value
    ensures global.None? && Preset(controller).Some? && Preset(controller).value.status.Some?
      ==> r == Preset(controller).value.status.value
    ensures r != Idle ==>
      (global.Some? || (Preset(controller).Some? && Preset(controller).value.status == Some(r)))
  {
    if global.Some? then global.value
    else if Preset(controller).Some? && Preset(controller).value.status.Some? then
      Preset(controller).value.status.value
    else Idle
  }

  /** A controller's explicit tick rate wins over the stored one. */
  function InitialTickRate(controller: Option<Controller>, raw: Option<string>,
                           number: string -> Option<real>): (r: real)
    ensures Preset(controller).Some? && Preset(controller).value.tickRate.Some?
      ==> r == Preset(controller).value.tickRate.value
    ensures !(Preset(controller).Some? && Preset(controller).value.tickRate.Some?)
      ==> r == ReadInitialTickRate(raw, number) && 1.0 <= r <= 100.0
  {
    if Preset(controller).Some? && Preset(controller).value.tickRate.Some? then
      Preset(controller).value.tickRate.value
    else ReadInitialTickRate(raw, number)
  }

  /** A controller's explicit speed wins over the stored one. */
  function InitialSpeed(controller: Option<Controller>, raw: Option<string>,
                        number: string -> Option<real>): (r: real)
    ensures Preset(controller).Some? && Preset(controller).value.speed.Some?
      ==> r == Preset(controller).value.speed.value
    ensures !(Preset(controller).Some? && Preset(controller).value.speed.Some?)
      ==> r == ReadInitialSpeed(raw, number) && 0.1 <= r <= 10.0
  {
    if Preset(controller).Some? && Preset(controller).value.speed.Some? then
      Preset(controller).value.speed.value
    else ReadInitialSpeed(raw, number)
  }

  /** `Math.max(1, Math.min(100, Math.round(t)))` */
  function ClampTickRate(t: real): (r: int)
    ensures 1 <= r <= 100
    ensures 0.5 <= t < 100.5 ==> r as real - 0.5 <= t < r as real + 0.5
    ensures t < 0.5 ==> r == 1
    ensures t >= 100.5 ==> r == 100
  {
    var n := Js.Round(t);
    if n < 1 then 1 else if n > 100 then 100 else n
  }

  /** `Math.max(0, Math.min(10, s))` */
  function ClampSpeed(s: real): (r: real)
    ensures 0.0 <= r <= 10.0
    ensures 0.0 <= s <= 10.0 ==> r == s
  {
    Js.Clamp(s, 0.0, 10.0)
  }

  /** The status after `issue(cmd)`; `stop` returns to idle, never to stopped. */
  function NextStatus(s: Status, cmd: Command): (r: Status)
    ensures r == Stopped ==> s == Stopped && cmd.Update?
    ensures cmd.Update? ==> r == s
  {
    match cmd
    case Resume => Playing
    case Pause => Paused
    case Stop => Idle
    case Update(_, _) => s
  }

  lemma IssueTransitions(s: Status, cmd: Command)
    ensures NextStatus(s, cmd) == Playing <==> cmd == Resume || (cmd.Update? && s == Playing)
    ensures NextStatus(s, cmd) == Paused <==> cmd == Pause || (cmd.Update? && s == Paused)
    ensures NextStatus(s, cmd) == Idle <==> cmd == Stop || (cmd.Update? && s == Idle)
    ensures NextStatus(s, cmd) == Stopped <==> cmd.Update? && s == Stopped
  {
  }

  /** The export guard of the handler (and the negation of the button's disabled state). */
  predicate CanExport(status: Status, exporting: bool, filename: string)
  {
    status == Paused && !exporting && Js.Trim(filename) != ""
  }

  /** A filename that passes the guard makes a request `simulation.export_state` accepts. */
  lemma ExportRequestValid(filename: string)
    requires CanExport(Paused, false, filename)
    ensures Zod.Validate(ProtocolSchema.FilenameParams,
                         JObj(map["filename" := JStr(Js.Trim(filename))])).Ok?
  {
    SchemaFacts.FileActionsNeedName(map["filename" := JStr(Js.Trim(filename))]);
  }

  /** A committed tick rate always reads back unchanged, given `Number(String(x)) == x`. */
  lemma TickRateRoundTrip(t: real, number: string -> Option<real>, show: real -> string)
    requires show(ClampTickRate(t) as real) != ""
    requires number(show(ClampTickRate(t) as real)) == Some(ClampTickRate(t) as real)
    ensures ReadInitialTickRate(Some(show(ClampTickRate(t) as real)), number) == ClampTickRate(t) as real
  {
  }

  /**
   * A committed speed below 0.1 is persisted but reads back as the default
   * 1.0, because the commit clamp starts at 0 and the read bound at 0.1.
   */
  lemma SlowSpeedReadsBackAsDefault(s: real, number: string -> Option<real>, show: real -> string)
    requires ClampSpeed(s) < 0.1
    requires show(ClampSpeed(s)) != ""
    requires number(show(ClampSpeed(s))) == Some(ClampSpeed(s))
    ensures ReadInitialSpeed(Some(show(ClampSpeed(s))), number) == DefaultSpeed
    ensures ClampSpeed(s) != DefaultSpeed
  {
  }

  /** A committed speed of at least 0.1 reads back unchanged. */
  lemma SpeedRoundTrip(s: real, number: string -> Option<real>, show: real -> string)
    requires ClampSpeed(s) >= 0.1
    requires show(ClampSpeed(s)) != ""
    requires number(show(ClampSpeed(s))) == Some(ClampSpeed(s))
    ensures ReadInitialSpeed(Some(show(ClampSpeed(s))), number) == ClampSpeed(s)
  {
  }

  class SimulationControls {
    var status: Status
    var tickRate: real
    var speed: real
    var exporting: bool
    var exportFilename: string
    /** The commands the controller's sink has received, oldest first. */
    var sent: seq<Command>
    const hasSink: bool
    const storage: MemoryStorage.MemoryStorage
    const show: real -> string

    constructor (global: Option<Status>, controller: Option<Controller>,
                 storage: MemoryStorage.MemoryStorage,
                 number: string -> Option<real>, show: real -> string)
      ensures this.storage == storage && this.show == show
      ensures hasSink == (controller.Some? && controller.value.hasSink)
      ensures status == InitialStatus(global, controller)
      ensures tickRate == InitialTickRate(controller, storage.GetItem(TickRateKey), number)
      ensures speed == InitialSpeed(controller, storage.GetItem(SpeedKey), number)
      ensures !exporting && exportFilename == InitialExportFilename && sent == []
    {
      this.storage := storage;
      this.show := show;
      hasSink := controller.Some? && controller.value.hasSink;
      status := InitialStatus(global, controller);
      tickRate := InitialTickRate(controller, storage.GetItem(TickRateKey), number);
      speed := InitialSpeed(controller, storage.GetItem(SpeedKey), number);
      exporting := false;
      exportFilename := InitialExportFilename;
      sent := [];
    }

    /** `commitUpdate`: clamp, store, persist both values, and send them. */
    method CommitUpdate(t: real, s: real)
      requires storage.Valid()
      modifies this, storage
      ensures tickRate == ClampTickRate(t) as real && speed == ClampSpeed(s)
      ensures storage.Valid()
      ensures storage.store == old(storage.store)[TickRateKey := show(tickRate)][SpeedKey := show(speed)]
      ensures sent == old(sent) + if hasSink then [Update(tickRate, speed)] else []
      ensures status == old(status) && exporting == old(exporting)
      ensures exportFilename == old(exportFilename)
    {
      var clampedTickRate := ClampTickRate(t) as real;
      var clampedSpeed := ClampSpeed(s);
      tickRate := clampedTickRate;
      storage.SetItem(TickRateKey, show(clampedTickRate));
      speed := clampedSpeed;
      storage.SetItem(SpeedKey, show(clampedSpeed));
      if hasSink {
        sent := sent + [Update(clampedTickRate, clampedSpeed)];
      }
    }

    /** `issue(cmd)`: the sink receives every command; the status follows it. */
    method Issue(cmd: Command)
      modifies this
      ensures sent == old(sent) + if hasSink then [cmd] else []
      ensures status == NextStatus(old(status), cmd)
      ensures tickRate == old(tickRate) && speed == old(speed)
      ensures exporting == old(exporting) && exportFilename == old(exportFilename)
    {
      if hasSink {
        sent := sent + [cmd];
      }
      status := NextStatus(status, cmd);
    }

    method SetExportFilename(name: string)
      modifies this
      ensures exportFilename == name
      ensures status == old(status) && exporting == old(exporting) && sent == old(sent)
      ensures tickRate == old(tickRate) && speed == old(speed)
    {
      exportFilename := name;
    }

    /**
     * The start of `handleExport`: when the guard holds, marks the export
     * in flight and yields the trimmed filename to request; otherwise
     * nothing changes.
     */
    method BeginExport() returns (request: Option<string>)
      modifies this
      ensures request.Some? <==> CanExport(old(status), old(exporting), old(exportFilename))
      ensures request.Some? ==> request.value == Js.Trim(exportFilename) && exporting
      ensures request.None? ==> exporting == old(exporting)
      ensures status == old(status) && exportFilename == old(exportFilename) && sent == old(sent)
      ensures tickRate == old(tickRate) && speed == old(speed)
    {
      if !CanExport(status, exporting, exportFilename) {
        return None;
      }
      exporting := true;
      request := Some(Js.Trim(exportFilename));
    }

    /** The `finally` of `handleExport`: whatever the reply, the export is over. */
    method FinishExport()
      modifies this
      ensures !exporting
      ensures status == old(status) && exportFilename == old(exportFilename) && sent == old(sent)
      ensures tickRate == old(tickRate) && speed == old(speed)
    {
      exporting := false;
    }
  }
}
