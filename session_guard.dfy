/**
 * The root-session guard: a persisted record saying whether the session is
 * in "normal" or "elevated" privilege mode, the idle timeout that revokes a
 * stale elevation, and the command-line dispatch that loads the record,
 * applies one transition and saves it again.
 *
 * Time is an integer number of minutes supplied by the caller (`now`); the
 * idle time is the difference between `now` and the last elevated activity.
 */
module SessionGuard {
  import opened Base
  import opened Text

  const Normal := "normal"
  const Elevated := "elevated"

  // ---------------------------------------------------------------------------
  // Timestamp text: `to_iso` and `from_iso`
  // ---------------------------------------------------------------------------

  /** `to_iso`: the `+00:00` offset that `isoformat` writes for UTC becomes `Z`. */
  function ToIso(isoformat: string): string {
    ReplaceAll(isoformat, "+00:00", "Z")
  }

  /**
   * `from_iso`: the text handed to `datetime.fromisoformat`, after a trailing
   * `Z` is rewritten to `+00:00`; `None` for a missing or empty value.
   */
  function FromIso(value: Option<string>): (r: Option<string>)
    ensures r.None? <==> value.None? || value.value == ""
    ensures r.Some? && !EndsWith(value.value, "Z") ==> r.value == value.value
    ensures r.Some? && EndsWith(value.value, "Z") ==>
      EndsWith(r.value, "+00:00") && r.value[..|r.value| - 6] == value.value[..|value.value| - 1]
  {
    match value
    case None => None
    case Some(v) =>
      if v == "" then None
      else if EndsWith(v, "Z") then Some(v[..|v| - 1] + "+00:00")
      else Some(v)
  }

  lemma {:induction false} ReplaceOffsetAtEnd(body: string)
    requires forall i :: 0 <= i < |body| ==> body[i] != '+'
    ensures ReplaceAll(body + "+00:00", "+00:00", "Z") == body + "Z"
  {
    if body != [] {
      var s := body + "+00:00";
      assert s[0] == body[0];
      assert s[1..] == body[1..] + "+00:00";
      ReplaceOffsetAtEnd(body[1..]);
      assert [body[0]] + (body[1..] + "Z") == body + "Z";
    }
  }

  /**
   * The ISO text of a UTC instant is a date-time without a `+` followed by
   * `+00:00`; `from_iso` undoes the `Z` rewrite of `to_iso` on it.
   */
  lemma ToIsoFromIsoRoundTrip(body: string)
    requires forall i :: 0 <= i < |body| ==> body[i] != '+'
    ensures ToIso(body + "+00:00") == body + "Z"
    ensures FromIso(Some(ToIso(body + "+00:00"))) == Some(body + "+00:00")
  {
    ReplaceOffsetAtEnd(body);
    var z := body + "Z";
    assert EndsWith(z, "Z");
    assert z[..|z| - 1] == body;
  }

  // ---------------------------------------------------------------------------
  // The session record, as a value and as stored
  // ---------------------------------------------------------------------------

  /** The five fields of a `SessionState`, as a value. */
  datatype Snapshot = Snapshot(
    mode: string,
    lastElevated: Option<int>,
    lastNormal: Option<int>,
    lastTransition: int,
    lastAction: string)

  /**
   * The JSON object in the state file: for each of the five keys, `None`
   * when the key is missing and `Some(v)` when it is present with value `v`.
   */
  datatype StoredRecord = StoredRecord(
    privilegeMode: Option<string>,
    lastElevatedActivity: Option<Option<int>>,
    lastNormalActivity: Option<Option<int>>,
    lastTransition: Option<int>,
    lastAction: Option<string>)

  /** `SessionState.as_dict`: every key written; loading it back gives the same state. */
  function AsDict(s: Snapshot): (r: StoredRecord)
    ensures forall now :: FromStored(r, now) == s
  {
    StoredRecord(Some(s.mode), Some(s.lastElevated), Some(s.lastNormal),
                 Some(s.lastTransition), Some(s.lastAction))
  }

  /**
   * The record `load_state` builds from an existing file: each present key is
   * taken verbatim (the mode is not validated), each missing key defaults.
   */
  function FromStored(raw: StoredRecord, now: int): Snapshot {
    Snapshot(
      if raw.privilegeMode.Some? then raw.privilegeMode.value else Normal,
      if raw.lastElevatedActivity.Some? then raw.lastElevatedActivity.value else None,
      if raw.lastNormalActivity.Some? then raw.lastNormalActivity.value else None,
      if raw.lastTransition.Some? then raw.lastTransition.value else now,
      if raw.lastAction.Some? then raw.lastAction.value else "unknown")
  }

  /** `default_state`: a normal session whose normal activity and transition are now. */
  function DefaultState(now: int): Snapshot {
    Snapshot(Normal, None, Some(now), now, "init-normal")
  }

  /** The state `load_state` returns for the file's current content. */
  function Loaded(stored: Option<StoredRecord>, now: int): Snapshot {
    match stored
    case None => DefaultState(now)
    case Some(raw) => FromStored(raw, now)
  }

  /** The file's content after `load_state`: a missing file receives the default state. */
  function StoredAfterLoad(stored: Option<StoredRecord>, now: int): Option<StoredRecord> {
    if stored.None? then Some(AsDict(DefaultState(now))) else stored
  }

  // ---------------------------------------------------------------------------
  // Transitions, as functions of the state
  // ---------------------------------------------------------------------------

  /** `minutes_since(last_elevated_activity_utc)`. */
  function IdleMinutes(s: Snapshot, now: int): Option<int> {
    if s.lastElevated.Some? then Some(now - s.lastElevated.value) else None
  }

  predicate TimedOut(s: Snapshot, timeoutMinutes: int, now: int) {
    var idle := IdleMinutes(s, now);
    s.mode == Elevated && idle.Some? && idle.value >= timeoutMinutes
  }

  predicate ApprovalRequired(s: Snapshot, timeoutMinutes: int, now: int) {
    s.mode != Elevated || TimedOut(s, timeoutMinutes, now)
  }

  /** Exit code of `preflight`: 0 exactly when an unexpired elevation is available. */
  function PreflightCode(s: Snapshot, timeoutMinutes: int, now: int): (code: int)
    ensures code == 0 || code == 2
    ensures code == 0 <==>
      s.mode == Elevated && (s.lastElevated.None? || now - s.lastElevated.value < timeoutMinutes)
  {
    if ApprovalRequired(s, timeoutMinutes, now) then 2 else 0
  }

  /**
   * State after `preflight`: only a timed-out elevation changes, and then it
   * drops to normal with a fresh transition, never touching the activity times.
   */
  function PreflightNext(s: Snapshot, timeoutMinutes: int, now: int): (r: Snapshot)
    ensures r.lastElevated == s.lastElevated && r.lastNormal == s.lastNormal
    ensures r != s <==> TimedOut(s, timeoutMinutes, now)
    ensures TimedOut(s, timeoutMinutes, now) ==>
      r.mode == Normal && r.lastTransition == now && r.lastAction == "timeout-drop"
  {
    if TimedOut(s, timeoutMinutes, now) then
      s.(mode := Normal, lastTransition := now, lastAction := "timeout-drop")
    else s
  }

  function MarkElevated(s: Snapshot, now: int): Snapshot {
    s.(mode := Elevated, lastElevated := Some(now), lastTransition := now, lastAction := "elevated-used")
  }

  function MarkNormal(s: Snapshot, now: int): Snapshot {
    s.(mode := Normal, lastNormal := Some(now), lastTransition := now, lastAction := "normal-used")
  }

  function Dropped(s: Snapshot, reason: string, now: int): Snapshot {
    s.(mode := Normal, lastTransition := now, lastAction := reason)
  }

  /** An elevated session always records when elevation was last used. */
  predicate ElevationStamped(s: Snapshot) {
    s.mode == Elevated ==> s.lastElevated.Some?
  }

  // ---------------------------------------------------------------------------
  // Properties of the transitions
  // ---------------------------------------------------------------------------

  /** After `preflight`, its exit code is 0 exactly when the session is (still) elevated. */
  lemma PreflightCodeMatchesMode(s: Snapshot, timeoutMinutes: int, now: int)
    ensures PreflightCode(s, timeoutMinutes, now) == 0 <==>
      PreflightNext(s, timeoutMinutes, now).mode == Elevated
  {
  }

  /** A second `preflight` at the same instant changes nothing and answers the same. */
  lemma PreflightIdempotent(s: Snapshot, timeoutMinutes: int, now: int)
    ensures var r := PreflightNext(s, timeoutMinutes, now);
      PreflightNext(r, timeoutMinutes, now) == r &&
      PreflightCode(r, timeoutMinutes, now) == PreflightCode(s, timeoutMinutes, now)
  {
  }

  /** Once approval is required, it stays required as time passes. */
  lemma ApprovalStaysRequired(s: Snapshot, timeoutMinutes: int, now: int, later: int)
    requires now <= later
    requires PreflightCode(s, timeoutMinutes, now) == 2
    ensures PreflightCode(s, timeoutMinutes, later) == 2
  {
  }

  /** A session that exceeded its idle timeout is dropped and needs approval again. */
  lemma IdleTimeoutDrops(s: Snapshot, timeoutMinutes: int, now: int)
    requires s.mode == Elevated && s.lastElevated.Some?
    requires now - s.lastElevated.value >= timeoutMinutes
    ensures PreflightCode(s, timeoutMinutes, now) == 2
    ensures PreflightNext(s, timeoutMinutes, now) ==
      s.(mode := Normal, lastTransition := now, lastAction := "timeout-drop")
  {
  }

  /**
   * `mark_elevated_used` makes elevation available for the timeout that
   * follows: a `preflight` less than `timeoutMinutes` later answers 0.
   */
  lemma ElevatedThenAvailable(s: Snapshot, now: int, later: int, timeoutMinutes: int)
    requires later - now < timeoutMinutes
    ensures var e := MarkElevated(s, now);
      e.mode == Elevated && e.lastElevated == Some(now) && e.lastTransition == now &&
      e.lastAction == "elevated-used" && e.lastNormal == s.lastNormal &&
      PreflightCode(e, timeoutMinutes, later) == 0 &&
      PreflightNext(e, timeoutMinutes, later) == e
  {
  }

  /** `mark_normal_used` returns to normal, so the next `preflight` requires approval. */
  lemma NormalUsedRequiresApproval(s: Snapshot, now: int, later: int, timeoutMinutes: int)
    ensures var n := MarkNormal(s, now);
      n.mode == Normal && n.lastNormal == Some(now) && n.lastTransition == now &&
      n.lastAction == "normal-used" && n.lastElevated == s.lastElevated &&
      PreflightCode(n, timeoutMinutes, later) == 2
  {
  }

  /**
   * `drop` leaves both activity times alone; dropping again changes only
   * the transition time.
   */
  lemma DropRepeated(s: Snapshot, reason: string, t1: int, t2: int)
    ensures var d := Dropped(s, reason, t1);
      d.mode == Normal && d.lastAction == reason && d.lastTransition == t1 &&
      d.lastElevated == s.lastElevated && d.lastNormal == s.lastNormal &&
      Dropped(d, reason, t2) == d.(lastTransition := t2)
  {
  }

  /** Every transition keeps an elevated session stamped with its last elevated use. */
  lemma TransitionsKeepElevationStamped(s: Snapshot, reason: string, timeoutMinutes: int, now: int)
    requires ElevationStamped(s)
    ensures ElevationStamped(PreflightNext(s, timeoutMinutes, now))
    ensures ElevationStamped(MarkElevated(s, now))
    ensures ElevationStamped(MarkNormal(s, now))
    ensures ElevationStamped(Dropped(s, reason, now))
  {
  }

  /** A fresh state is normal, stamped, and needs approval at any later time. */
  lemma DefaultStateRequiresApproval(now: int, later: int, timeoutMinutes: int)
    ensures var d := DefaultState(now);
      d.mode == Normal && d.lastElevated.None? && d.lastNormal == Some(d.lastTransition) &&
      d.lastAction == "init-normal" && ElevationStamped(d) &&
      PreflightCode(d, timeoutMinutes, later) == 2 &&
      PreflightNext(d, timeoutMinutes, later) == d
  {
  }

  /**
   * Loading defaults missing keys to mode "normal" and action "unknown", and
   * keeps a present mode verbatim: any mode other than "elevated" needs approval.
   */
  lemma LoadedDefaultsAndVerbatimMode(raw: StoredRecord, now: int, timeoutMinutes: int)
    ensures var s := FromStored(raw, now);
      (raw.privilegeMode.None? ==> s.mode == Normal) &&
      (raw.lastAction.None? ==> s.lastAction == "unknown") &&
      (raw.lastTransition.None? ==> s.lastTransition == now) &&
      (raw.lastElevatedActivity.None? ==> s.lastElevated.None?) &&
      (raw.lastNormalActivity.None? ==> s.lastNormal.None?) &&
      (raw.privilegeMode.Some? ==> s.mode == raw.privilegeMode.value) &&
      (raw.lastAction.Some? ==> s.lastAction == raw.lastAction.value) &&
      (raw.lastTransition.Some? ==> s.lastTransition == raw.lastTransition.value) &&
      (raw.lastElevatedActivity.Some? ==> s.lastElevated == raw.lastElevatedActivity.value) &&
      (raw.lastNormalActivity.Some? ==> s.lastNormal == raw.lastNormalActivity.value) &&
      (s.mode != Elevated ==> PreflightCode(s, timeoutMinutes, now) == 2)
  {
  }

  // ---------------------------------------------------------------------------
  // The mutable record and the state file
  // ---------------------------------------------------------------------------

  /** What `status` reports besides printing it. */
  datatype StatusReport = StatusReport(
    record: StoredRecord,
    idleMinutes: Option<int>,
    timeoutMinutes: int,
    timedOut: bool,
    approvalRequired: bool)

  /** The `SessionState` dataclass, whose fields the transitions assign in place. */
  class SessionState {
    var privilegeMode: string
    var lastElevatedActivity: Option<int>
    var lastNormalActivity: Option<int>
    var lastTransition: int
    var lastAction: string

    function Value(): Snapshot
      reads this
    {
      Snapshot(privilegeMode, lastElevatedActivity, lastNormalActivity, lastTransition, lastAction)
    }

    constructor (s: Snapshot)
      ensures Value() == s
    {
      privilegeMode := s.mode;
      lastElevatedActivity := s.lastElevated;
      lastNormalActivity := s.lastNormal;
      lastTransition := s.lastTransition;
      lastAction := s.lastAction;
    }

    /** `preflight`: drop a timed-out elevation and answer 0 (available) or 2 (approval required). */
    method Preflight(timeoutMinutes: int, now: int) returns (code: int)
      modifies this
      ensures code == PreflightCode(old(Value()), timeoutMinutes, now)
      ensures Value() == PreflightNext(old(Value()), timeoutMinutes, now)
    {
      var idle := IdleMinutes(Value(), now);
      var timedOut := privilegeMode == Elevated && idle.Some? && idle.value >= timeoutMinutes;
      var approvalRequired := true;
      if privilegeMode == Elevated && !timedOut {
        approvalRequired := false;
      } else if timedOut {
        privilegeMode := Normal;
        lastTransition := now;
        lastAction := "timeout-drop";
      }
      code := if approvalRequired then 2 else 0;
    }

    method MarkElevatedUsed(now: int)
      modifies this
      ensures Value() == MarkElevated(old(Value()), now)
    {
      privilegeMode := Elevated;
      lastElevatedActivity := Some(now);
      lastTransition := now;
      lastAction := "elevated-used";
    }

    method MarkNormalUsed(now: int)
      modifies this
      ensures Value() == MarkNormal(old(Value()), now)
    {
      privilegeMode := Normal;
      lastNormalActivity := Some(now);
      lastTransition := now;
      lastAction := "normal-used";
    }

    method Drop(reason: string, now: int)
      modifies this
      ensures Value() == Dropped(old(Value()), reason, now)
    {
      privilegeMode := Normal;
      lastTransition := now;
      lastAction := reason;
    }

    /**
     * `status`: a read-only report; approval is required exactly when
     * `preflight` would answer 2.
     */
    method Status(timeoutMinutes: int, now: int) returns (report: StatusReport)
      ensures report.record == AsDict(Value())
      ensures report.idleMinutes == IdleMinutes(Value(), now)
      ensures report.timeoutMinutes == timeoutMinutes
      ensures report.timedOut <==> TimedOut(Value(), timeoutMinutes, now)
      ensures report.approvalRequired <==> PreflightCode(Value(), timeoutMinutes, now) == 2
    {
      var idle := IdleMinutes(Value(), now);
      var timedOut := privilegeMode == Elevated && idle.Some? && idle.value >= timeoutMinutes;
      report := StatusReport(AsDict(Value()), idle, timeoutMinutes, timedOut,
                             privilegeMode != Elevated || timedOut);
    }
  }

  /** The state file on disk: `None` while it does not exist. */
  class StateFile {
    var stored: Option<StoredRecord>

    constructor (initial: Option<StoredRecord>)
      ensures stored == initial
    {
      stored := initial;
    }
  }

  /** `load_state`: read the file, or create it with the default state. */
  method LoadState(file: StateFile, now: int) returns (state: SessionState)
    modifies file
    ensures fresh(state)
    ensures state.Value() == Loaded(old(file.stored), now)
    ensures file.stored == StoredAfterLoad(old(file.stored), now)
  {
    if file.stored.None? {
      state := new SessionState(DefaultState(now));
      SaveState(file, state);
    } else {
      state := new SessionState(FromStored(file.stored.value, now));
    }
  }

  /** `save_state`: the whole record replaces the file's content. */
  method SaveState(file: StateFile, state: SessionState)
    modifies file
    ensures file.stored == Some(AsDict(state.Value()))
  {
    file.stored := Some(AsDict(state.Value()));
  }

  /** The guard's subcommands. */
  datatype Command = Preflight | ElevatedUsed | NormalUsed | DropSession | Status

  /**
   * `main`: load, apply the subcommand's transition, save, and exit with its
   * code. `status` never saves, so the file keeps what loading left there.
   */
  method Cli(file: StateFile, command: Command, timeoutMinutes: int, now: int) returns (code: int)
    modifies file
    ensures var before := Loaded(old(file.stored), now);
      match command
      case Preflight =>
        code == PreflightCode(before, timeoutMinutes, now) &&
        file.stored == Some(AsDict(PreflightNext(before, timeoutMinutes, now)))
      case ElevatedUsed => code == 0 && file.stored == Some(AsDict(MarkElevated(before, now)))
      case NormalUsed => code == 0 && file.stored == Some(AsDict(MarkNormal(before, now)))
      case DropSession => code == 0 && file.stored == Some(AsDict(Dropped(before, "manual-drop", now)))
      case Status => code == 0 && file.stored == StoredAfterLoad(old(file.stored), now)
  {
    var state := LoadState(file, now);
    match command
    case Preflight =>
      code := state.Preflight(timeoutMinutes, now);
      SaveState(file, state);
    case ElevatedUsed =>
      state.MarkElevatedUsed(now);
      SaveState(file, state);
      code := 0;
    case NormalUsed =>
      state.MarkNormalUsed(now);
      SaveState(file, state);
      code := 0;
    case DropSession =>
      state.Drop("manual-drop", now);
      SaveState(file, state);
      code := 0;
    case Status =>
      var _ := state.Status(timeoutMinutes, now);
      code := 0;
  }
}
