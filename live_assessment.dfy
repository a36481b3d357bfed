/**
 * The live compliance assessment: probes of the OpenClaw configuration
 * (channel allowlists, group mentions, gateway exposure, file permissions),
 * `set_check`, which creates or updates one control record, and
 * `build_assessment`, which re-derives fourteen controls from the machine's
 * signals, merges them into the assessment's existing checks and stores the
 * checks back sorted by id.
 *
 * What the script reads from the machine is an input: the command outputs
 * and the parsed configuration are `Signals`, the file-system probes are
 * `Probes`, and the clock reading is the `generatedAt` parameter. A Python
 * exception raised while building is an `Err` carrying a `Fault`.
 */
module LiveAssessment {
  import opened Base
  import opened Text
  import opened Json

  // ---------------------------------------------------------------------------
  // File permissions: `permissions_hardened`
  // ---------------------------------------------------------------------------

  /**
   * `permissions_hardened`: `mode` is the `st_mode` of the path, or `None`
   * when `stat` failed. The path is hardened exactly when none of the six
   * group and other permission bits is set.
   */
  function PermissionsHardened(mode: Option<bv32>): (r: bool)
    ensures r <==> mode.Some?
                   && mode.value & 0x20 == 0 && mode.value & 0x10 == 0 && mode.value & 0x08 == 0
                   && mode.value & 0x04 == 0 && mode.value & 0x02 == 0 && mode.value & 0x01 == 0
  {
    match mode
    case None => false
    case Some(m) => (m & 0x1FF) & 0x3F == 0
  }

  // ---------------------------------------------------------------------------
  // Configuration probes
  // ---------------------------------------------------------------------------

  /** The members of `cfg["channels"]`, when `cfg` and that value are both objects. */
  function Channels(cfg: Json): Option<seq<(string, Json)>> {
    if cfg.JObj? then
      match Get(cfg.fields, "channels")
      case Some(JObj(channels)) => Some(channels)
      case _ => None
    else None
  }

  /** A channel configuration whose `allowFrom` is a non-empty list. */
  predicate HasAllowFrom(channel: Json) {
    channel.JObj? &&
    match Get(channel.fields, "allowFrom")
    case Some(JArr(senders)) => senders != []
    case _ => false
  }

  function AnyAllowFrom(channels: seq<(string, Json)>): (r: bool)
    ensures r <==> exists i :: 0 <= i < |channels| && HasAllowFrom(channels[i].1)
  {
    if channels == [] then false
    else
      var rest := AnyAllowFrom(channels[1..]);
      assert forall i :: 1 <= i < |channels| ==> channels[i] == channels[1..][i - 1];
      HasAllowFrom(channels[0].1) || rest
  }

  /** `find_channel_allowlists`: some channel restricts its senders. */
  function FindChannelAllowlists(cfg: Json): (r: bool)
    ensures r <==> Channels(cfg).Some?
                   && exists i :: 0 <= i < |Channels(cfg).value| && HasAllowFrom(Channels(cfg).value[i].1)
  {
    match Channels(cfg)
    case None => false
    case Some(channels) => AnyAllowFrom(channels)
  }

  /** The members of `channel["groups"]`, when the channel and that value are objects. */
  function Groups(channel: Json): Option<seq<(string, Json)>> {
    if channel.JObj? then
      match Get(channel.fields, "groups")
      case Some(JObj(groups)) => Some(groups)
      case _ => None
    else None
  }

  /** A group configuration whose `requireMention` is the boolean `true` (`is True`). */
  predicate RequiresMention(group: Json) {
    group.JObj? && Get(group.fields, "requireMention") == Some(JBool(true))
  }

  /** The `j`-th group of `channel` requires a mention. */
  predicate GroupRequiresMention(channel: Json, j: int) {
    Groups(channel).Some? && 0 <= j < |Groups(channel).value| && RequiresMention(Groups(channel).value[j].1)
  }

  function AnyGroupRequiresMention(groups: seq<(string, Json)>): (r: bool)
    ensures r <==> exists j :: 0 <= j < |groups| && RequiresMention(groups[j].1)
  {
    if groups == [] then false
    else
      var rest := AnyGroupRequiresMention(groups[1..]);
      assert forall j :: 1 <= j < |groups| ==> groups[j] == groups[1..][j - 1];
      RequiresMention(groups[0].1) || rest
  }

  /** Some group of `channel` requires a mention. */
  function ChannelRequiresMention(channel: Json): (r: bool)
    ensures r <==> exists j :: GroupRequiresMention(channel, j)
  {
    match Groups(channel)
    case None => false
    case Some(groups) =>
      var r := AnyGroupRequiresMention(groups);
      assert forall j :: GroupRequiresMention(channel, j) <==> 0 <= j < |groups| && RequiresMention(groups[j].1);
      r
  }

  function AnyChannelRequiresMention(channels: seq<(string, Json)>): (r: bool)
    ensures r <==> exists i, j :: 0 <= i < |channels| && GroupRequiresMention(channels[i].1, j)
  {
    if channels == [] then false
    else
      var rest := AnyChannelRequiresMention(channels[1..]);
      assert forall i :: 1 <= i < |channels| ==> channels[i] == channels[1..][i - 1];
      ChannelRequiresMention(channels[0].1) || rest
  }

  /** `cfg["messages"]["groupChat"]["mentionPatterns"]` exists and is truthy. */
  predicate MentionPatternsSet(cfg: Json) {
    cfg.JObj? &&
    match Get(cfg.fields, "messages")
    case Some(JObj(messages)) =>
      (match Get(messages, "groupChat")
       case Some(JObj(groupChat)) => Truthy(GetOr(groupChat, "mentionPatterns", JNull))
       case _ => false)
    case _ => false
  }

  /**
   * `group_mentions_required`: some group of some channel requires a
   * mention, or the group-chat settings define mention patterns.
   */
  function GroupMentionsRequired(cfg: Json): (r: bool)
    ensures r <==> (Channels(cfg).Some?
                    && exists i, j :: 0 <= i < |Channels(cfg).value|
                                      && GroupRequiresMention(Channels(cfg).value[i].1, j))
                   || MentionPatternsSet(cfg)
  {
    var inGroups := match Channels(cfg)
                    case None => false
                    case Some(channels) => AnyChannelRequiresMention(channels);
    inGroups || MentionPatternsSet(cfg)
  }

  const LocalModeText := "\"mode\": \"local\""
  const LoopbackBindText := "\"bind\": \"loopback\""
  const TokenModeText := "\"mode\": \"token\""

  /** `cfg.get("gateway", {})` for a configuration object. */
  function GatewayOf(cfg: Json): Json
    requires cfg.JObj?
  {
    GetOr(cfg.fields, "gateway", JObj([]))
  }

  /** `v.get(key) if isinstance(v, dict) else None`. */
  function Member(v: Json, key: string): Option<Json> {
    if v.JObj? then Get(v.fields, key) else None
  }

  /**
   * `gateway_loopback_configured`. For a configuration object: gateway mode
   * `local`, bind `loopback`, and an auth object with mode `token`, where a
   * truthy top-level `auth` is used before `gateway.auth`. `None` is the
   * `AttributeError` raised when the top-level `auth` is falsy and the
   * gateway is not an object. Without a configuration object, the three
   * settings are looked for in the configuration text.
   */
  function GatewayLoopbackConfigured(cfg: Json, cfgText: string): (r: Option<bool>)
    ensures r.None? <==> cfg.JObj? && !Truthy(GetOr(cfg.fields, "auth", JNull)) && !GatewayOf(cfg).JObj?
    ensures cfg.JObj? && r == Some(true) ==>
              Member(GatewayOf(cfg), "mode") == Some(JStr("local"))
              && Member(GatewayOf(cfg), "bind") == Some(JStr("loopback"))
    ensures cfg.JObj? && Truthy(GetOr(cfg.fields, "auth", JNull)) && r == Some(true) ==>
              Member(GetOr(cfg.fields, "auth", JNull), "mode") == Some(JStr("token"))
    ensures cfg.JObj? && !Truthy(GetOr(cfg.fields, "auth", JNull)) && r == Some(true) ==>
              GatewayOf(cfg).JObj?
              && Member(GetOr(GatewayOf(cfg).fields, "auth", JNull), "mode") == Some(JStr("token"))
    ensures !cfg.JObj? ==>
              r == Some(Contains(cfgText, LocalModeText) && Contains(cfgText, LoopbackBindText)
                        && Contains(cfgText, TokenModeText))
  {
    if cfg.JObj? then
      var gateway := GatewayOf(cfg);
      var topAuth := GetOr(cfg.fields, "auth", JNull);
      if !Truthy(topAuth) && !gateway.JObj? then None
      else
        var auth := if Truthy(topAuth) then topAuth else GetOr(gateway.fields, "auth", JNull);
        Some(Member(gateway, "mode") == Some(JStr("local"))
             && Member(gateway, "bind") == Some(JStr("loopback"))
             && Member(auth, "mode") == Some(JStr("token")))
    else
      Some(Contains(cfgText, LocalModeText) && Contains(cfgText, LoopbackBindText)
           && Contains(cfgText, TokenModeText))
  }

  /** The configuration with `gateway.auth` replaced by `auth`. */
  function WithGatewayAuth(cfg: Json, auth: Json): Json
    requires cfg.JObj? && GatewayOf(cfg).JObj?
  {
    JObj(Put(cfg.fields, "gateway", JObj(Put(GatewayOf(cfg).fields, "auth", auth))))
  }

  lemma GatewayOfWithAuth(cfg: Json, auth: Json)
    requires cfg.JObj? && GatewayOf(cfg).JObj?
    ensures GatewayOf(WithGatewayAuth(cfg, auth)) == JObj(Put(GatewayOf(cfg).fields, "auth", auth))
    ensures Member(GatewayOf(WithGatewayAuth(cfg, auth)), "mode") == Member(GatewayOf(cfg), "mode")
    ensures Member(GatewayOf(WithGatewayAuth(cfg, auth)), "bind") == Member(GatewayOf(cfg), "bind")
    ensures GetOr(WithGatewayAuth(cfg, auth).fields, "auth", JNull) == GetOr(cfg.fields, "auth", JNull)
  {
    PutGet(cfg.fields, "gateway", JObj(Put(GatewayOf(cfg).fields, "auth", auth)), "gateway");
    PutGet(cfg.fields, "gateway", JObj(Put(GatewayOf(cfg).fields, "auth", auth)), "auth");
    PutGet(GatewayOf(cfg).fields, "auth", auth, "mode");
    PutGet(GatewayOf(cfg).fields, "auth", auth, "bind");
  }

  /** A truthy top-level `auth` decides the auth mode: `gateway.auth` is then irrelevant. */
  lemma TopLevelAuthTakesPrecedence(cfg: Json, cfgText: string, auth: Json)
    requires cfg.JObj? && GatewayOf(cfg).JObj? && Truthy(GetOr(cfg.fields, "auth", JNull))
    ensures GatewayLoopbackConfigured(WithGatewayAuth(cfg, auth), cfgText)
            == GatewayLoopbackConfigured(cfg, cfgText)
  {
    GatewayOfWithAuth(cfg, auth);
  }

  /** With a truthy top-level `auth`, the auth mode is read from it. */
  lemma TopLevelAuthUsedWhenTruthy(cfg: Json, cfgText: string)
    requires cfg.JObj? && Truthy(GetOr(cfg.fields, "auth", JNull))
    ensures GatewayLoopbackConfigured(cfg, cfgText)
            == Some(Member(GatewayOf(cfg), "mode") == Some(JStr("local"))
                    && Member(GatewayOf(cfg), "bind") == Some(JStr("loopback"))
                    && Member(GetOr(cfg.fields, "auth", JNull), "mode") == Some(JStr("token")))
  {
  }

  /** With a falsy top-level `auth`, the auth mode is read from `gateway.auth`. */
  lemma GatewayAuthUsedWhenTopLevelFalsy(cfg: Json, cfgText: string, auth: Json)
    requires cfg.JObj? && GatewayOf(cfg).JObj? && !Truthy(GetOr(cfg.fields, "auth", JNull))
    ensures GatewayLoopbackConfigured(WithGatewayAuth(cfg, auth), cfgText)
            == Some(Member(GatewayOf(cfg), "mode") == Some(JStr("local"))
                    && Member(GatewayOf(cfg), "bind") == Some(JStr("loopback"))
                    && auth.JObj? && Get(auth.fields, "mode") == Some(JStr("token")))
  {
    GatewayOfWithAuth(cfg, auth);
    PutGet(GatewayOf(cfg).fields, "auth", auth, "auth");
  }

  // ---------------------------------------------------------------------------
  // Control records and `set_check`
  // ---------------------------------------------------------------------------

  /** A check record: a JSON object's members. */
  type Record = seq<(string, Json)>

  /** The eight values `set_check` writes into a check record. */
  datatype CheckFields = CheckFields(
    status: string,
    risk: string,
    observedState: string,
    evidence: string,
    gap: string,
    mitigation: string,
    owner: string,
    dueDate: string)

  /** The keys `set_check` assigns. */
  predicate IsFieldName(key: string) {
    key == "status" || key == "risk" || key == "observed_state" || key == "evidence"
    || key == "gap" || key == "mitigation" || key == "owner" || key == "due_date"
  }

  /** The record holds the eight values of `f` under their keys. */
  predicate FieldsSet(c: Record, f: CheckFields) {
    Get(c, "status") == Some(JStr(f.status))
    && Get(c, "risk") == Some(JStr(f.risk))
    && Get(c, "observed_state") == Some(JStr(f.observedState))
    && Get(c, "evidence") == Some(JStr(f.evidence))
    && Get(c, "gap") == Some(JStr(f.gap))
    && Get(c, "mitigation") == Some(JStr(f.mitigation))
    && Get(c, "owner") == Some(JStr(f.owner))
    && Get(c, "due_date") == Some(JStr(f.dueDate))
  }

  /** The record `setdefault` inserts for an id not yet present. */
  function NewCheck(id: string): Record {
    [("check_id", JStr(id))]
  }

  /** The eight assignments of `set_check`, in order. */
  function ApplyFields(c: Record, f: CheckFields): Record {
    var c1 := Put(c, "status", JStr(f.status));
    var c2 := Put(c1, "risk", JStr(f.risk));
    var c3 := Put(c2, "observed_state", JStr(f.observedState));
    var c4 := Put(c3, "evidence", JStr(f.evidence));
    var c5 := Put(c4, "gap", JStr(f.gap));
    var c6 := Put(c5, "mitigation", JStr(f.mitigation));
    var c7 := Put(c6, "owner", JStr(f.owner));
    Put(c7, "due_date", JStr(f.dueDate))
  }

  /** What `get` sees in a record after the eight assignments. */
  lemma ApplyFieldsGet(c: Record, f: CheckFields, key: string)
    ensures Get(ApplyFields(c, f), key)
            == if key == "status" then Some(JStr(f.status))
               else if key == "risk" then Some(JStr(f.risk))
               else if key == "observed_state" then Some(JStr(f.observedState))
               else if key == "evidence" then Some(JStr(f.evidence))
               else if key == "gap" then Some(JStr(f.gap))
               else if key == "mitigation" then Some(JStr(f.mitigation))
               else if key == "owner" then Some(JStr(f.owner))
               else if key == "due_date" then Some(JStr(f.dueDate))
               else Get(c, key)
  {
    var c1 := Put(c, "status", JStr(f.status));
    var c2 := Put(c1, "risk", JStr(f.risk));
    var c3 := Put(c2, "observed_state", JStr(f.observedState));
    var c4 := Put(c3, "evidence", JStr(f.evidence));
    var c5 := Put(c4, "gap", JStr(f.gap));
    var c6 := Put(c5, "mitigation", JStr(f.mitigation));
    var c7 := Put(c6, "owner", JStr(f.owner));
    PutGet(c, "status", JStr(f.status), key);
    PutGet(c1, "risk", JStr(f.risk), key);
    PutGet(c2, "observed_state", JStr(f.observedState), key);
    PutGet(c3, "evidence", JStr(f.evidence), key);
    PutGet(c4, "gap", JStr(f.gap), key);
    PutGet(c5, "mitigation", JStr(f.mitigation), key);
    PutGet(c6, "owner", JStr(f.owner), key);
    PutGet(c7, "due_date", JStr(f.dueDate), key);
  }

  /** After the assignments the record holds the eight values. */
  lemma ApplyFieldsSets(c: Record, f: CheckFields)
    ensures FieldsSet(ApplyFields(c, f), f)
  {
    ApplyFieldsGet(c, f, "status");
    ApplyFieldsGet(c, f, "risk");
    ApplyFieldsGet(c, f, "observed_state");
    ApplyFieldsGet(c, f, "evidence");
    ApplyFieldsGet(c, f, "gap");
    ApplyFieldsGet(c, f, "mitigation");
    ApplyFieldsGet(c, f, "owner");
    ApplyFieldsGet(c, f, "due_date");
  }

  /** The assignments leave every other member of the record as it was. */
  lemma ApplyFieldsKeeps(c: Record, f: CheckFields, key: string)
    requires !IsFieldName(key)
    ensures Get(ApplyFields(c, f), key) == Get(c, key)
  {
    ApplyFieldsGet(c, f, key);
  }

  /** `checks_by_id.setdefault(id, {"check_id": id})`, before the assignments. */
  function Existing(byId: map<string, Record>, id: string): Record {
    if id in byId then byId[id] else NewCheck(id)
  }

  /** The table after `set_check(table, id, ...)`. */
  function Upsert(byId: map<string, Record>, id: string, f: CheckFields): map<string, Record> {
    byId[id := ApplyFields(Existing(byId, id), f)]
  }

  /**
   * `set_check`: the id is present afterwards, its record holds the eight
   * values and keeps every other member (a new record holds just
   * `check_id` besides them), and every other id keeps its record.
   */
  lemma SetCheckEffect(byId: map<string, Record>, id: string, f: CheckFields)
    ensures Upsert(byId, id, f).Keys == byId.Keys + {id}
    ensures forall k :: k in byId && k != id ==> Upsert(byId, id, f)[k] == byId[k]
    ensures FieldsSet(Upsert(byId, id, f)[id], f)
    ensures forall key :: !IsFieldName(key) ==>
              Get(Upsert(byId, id, f)[id], key) == Get(if id in byId then byId[id] else NewCheck(id), key)
  {
    ApplyFieldsSets(Existing(byId, id), f);
    forall key | !IsFieldName(key)
      ensures Get(Upsert(byId, id, f)[id], key) == Get(Existing(byId, id), key)
    {
      ApplyFieldsKeeps(Existing(byId, id), f, key);
    }
  }

  /** Every record is stored under the id its `check_id` member holds. */
  predicate IdsStored(byId: map<string, Record>) {
    forall id :: id in byId ==> Get(byId[id], "check_id") == Some(JStr(id))
  }

  lemma UpsertKeepsIds(byId: map<string, Record>, id: string, f: CheckFields)
    requires IdsStored(byId)
    ensures IdsStored(Upsert(byId, id, f))
  {
    ApplyFieldsKeeps(Existing(byId, id), f, "check_id");
    assert Get(NewCheck(id), "check_id") == Some(JStr(id));
  }

  /**
   * The `checks_by_id` dictionary of `build_assessment`. The ghost fields
   * remember the dictionary it started from and the `set_check` calls made
   * since, so that `Valid` can say the table is their fold.
   */
  class CheckTable {
    var byId: map<string, Record>
    ghost var initial: map<string, Record>
    ghost var applied: Calls

    ghost predicate Valid()
      reads this
    {
      byId == UpsertAll(initial, applied)
    }

    constructor(start: map<string, Record>)
      ensures Valid() && byId == start && initial == start && applied == NoCalls
    {
      byId := start;
      initial := start;
      applied := NoCalls;
    }

    /** `set_check`. */
    method SetCheck(id: string, f: CheckFields)
      requires Valid()
      modifies this
      ensures Valid() && initial == old(initial) && applied == Then(old(applied), id, f)
      ensures byId == Upsert(old(byId), id, f)
    {
      var c := if id in byId then byId[id] else NewCheck(id);
      c := Put(c, "status", JStr(f.status));
      c := Put(c, "risk", JStr(f.risk));
      c := Put(c, "observed_state", JStr(f.observedState));
      c := Put(c, "evidence", JStr(f.evidence));
      c := Put(c, "gap", JStr(f.gap));
      c := Put(c, "mitigation", JStr(f.mitigation));
      c := Put(c, "owner", JStr(f.owner));
      c := Put(c, "due_date", JStr(f.dueDate));
      byId := byId[id := c];
      applied := Then(applied, id, f);
    }
  }

  // ---------------------------------------------------------------------------
  // Several `set_check` calls in a row
  // ---------------------------------------------------------------------------

  /**
   * A run of `set_check` calls, oldest first: `Then(before, id, fields)` is
   * the calls `before` followed by `set_check(table, id, fields...)`.
   */
  datatype Calls = NoCalls | Then(before: Calls, id: string, fields: CheckFields)

  /** The table after the calls. */
  function UpsertAll(byId: map<string, Record>, calls: Calls): map<string, Record> {
    match calls
    case NoCalls => byId
    case Then(before, id, f) => Upsert(UpsertAll(byId, before), id, f)
  }

  /** The ids the calls set. */
  function CallIds(calls: Calls): set<string> {
    match calls
    case NoCalls => {}
    case Then(before, id, _) => CallIds(before) + {id}
  }

  /** The values the last call with this id sets, if any call has it. */
  function FieldsFor(calls: Calls, id: string): Option<CheckFields> {
    match calls
    case NoCalls => None
    case Then(before, i, f) => if i == id then Some(f) else FieldsFor(before, id)
  }

  /** Every call's id is in `ids`. */
  predicate AllIn(calls: Calls, ids: set<string>) {
    match calls
    case NoCalls => true
    case Then(before, id, _) => id in ids && AllIn(before, ids)
  }

  lemma {:induction false} AllInIds(calls: Calls, ids: set<string>)
    requires AllIn(calls, ids)
    ensures CallIds(calls) <= ids
  {
    if calls.Then? {
      AllInIds(calls.before, ids);
    }
  }

  /**
   * The definitions of `CallIds`, `AllIn` and `FieldsFor` for a call of any depth,
   * so that a long run of calls written out unfolds all the way.
   */
  lemma CallStep()
    ensures forall before, id, f :: CallIds(Then(before, id, f)) == CallIds(before) + {id}
    ensures forall before, id, f, ids :: AllIn(Then(before, id, f), ids) == (id in ids && AllIn(before, ids))
    ensures forall before, i, f, id :: FieldsFor(Then(before, i, f), id)
              == if i == id then Some(f) else FieldsFor(before, id)
  {
  }

  /** The calls add their ids to the table's and remove none. */
  lemma {:induction false} UpsertAllKeys(byId: map<string, Record>, calls: Calls)
    ensures UpsertAll(byId, calls).Keys == byId.Keys + CallIds(calls)
  {
    if calls.Then? {
      UpsertAllKeys(byId, calls.before);
    }
  }

  /** A record no call names is left as it was. */
  lemma {:induction false} UpsertAllUntouched(byId: map<string, Record>, calls: Calls, id: string)
    requires id in byId && id !in CallIds(calls)
    ensures id in UpsertAll(byId, calls) && UpsertAll(byId, calls)[id] == byId[id]
  {
    if calls.Then? {
      UpsertAllUntouched(byId, calls.before, id);
    }
  }

  /** A call with an id means `FieldsFor` finds one for it, and only then. */
  lemma {:induction false} FieldsForFinds(calls: Calls, id: string)
    ensures FieldsFor(calls, id).Some? <==> id in CallIds(calls)
  {
    if calls.Then? {
      FieldsForFinds(calls.before, id);
    }
  }

  /**
   * The last call with an id decides that record's eight values, and every
   * other member of the record is what it held before the calls (just
   * `check_id` for an id that was not in the table).
   */
  lemma {:induction false} UpsertAllDecides(byId: map<string, Record>, calls: Calls, id: string)
    requires id in CallIds(calls)
    ensures id in UpsertAll(byId, calls)
    ensures FieldsFor(calls, id).Some? && FieldsSet(UpsertAll(byId, calls)[id], FieldsFor(calls, id).value)
    ensures forall key :: !IsFieldName(key) ==> Get(UpsertAll(byId, calls)[id], key) == Get(Existing(byId, id), key)
  {
    var before := UpsertAll(byId, calls.before);
    FieldsForFinds(calls, id);
    SetCheckEffect(before, calls.id, calls.fields);
    if calls.id == id {
      if id in CallIds(calls.before) {
        UpsertAllDecides(byId, calls.before, id);
      } else {
        UpsertAllKeys(byId, calls.before);
        if id in byId {
          UpsertAllUntouched(byId, calls.before, id);
        }
      }
    } else {
      UpsertAllDecides(byId, calls.before, id);
    }
  }

  /** The calls keep every record stored under its own `check_id`. */
  lemma {:induction false} UpsertAllKeepsIds(byId: map<string, Record>, calls: Calls)
    requires IdsStored(byId)
    ensures IdsStored(UpsertAll(byId, calls))
  {
    if calls.Then? {
      UpsertAllKeepsIds(byId, calls.before);
      UpsertKeepsIds(UpsertAll(byId, calls.before), calls.id, calls.fields);
    }
  }

  // ---------------------------------------------------------------------------
  // The fourteen controls
  // ---------------------------------------------------------------------------

  /** What the probes and command outputs `build_assessment` reads say, once evaluated. */
  datatype Observations = Observations(
    loopback: bool,          // gateway_loopback_configured(cfg_json, cfg_text)
    writableIssue: bool,     // "not writable" in doctor.lower()
    listening: nat,          // len(port_report.get("listening_services", []))
    unapproved: nat,         // number of "unapproved-port" findings
    insecure: nat,           // number of "insecure-port" findings
    allowlist: bool,         // find_channel_allowlists on a configuration object
    mentions: bool,          // group_mentions_required on a configuration object
    versionText: string)     // the stripped `--version` output

  /** The machine probes: hook, su/doas, audit log, backups and two `stat` modes. */
  datatype Probes = Probes(
    hookInstalled: bool,
    altPrivilegeTools: bool,
    auditLogPopulated: bool,
    auditLogPath: string,
    backupsPresent: bool,
    stateDirMode: Option<bv32>,
    configFileMode: Option<bv32>)

  const Compliant := "compliant"
  const Partial := "partial"
  const Violation := "violation"
  const High := "high"
  const Medium := "medium"
  const Low := "low"
  const SecurityEngineering := "Security Engineering"
  const PlatformSecurity := "Platform Security"
  const SecOps := "SecOps"
  const Infrastructure := "Infrastructure"
  const NetworkSecurity := "Network Security"

  /**
   * The sentences `build_assessment` writes into the checks, one field per
   * sentence. The check functions take them as a parameter, so what is proved
   * about them holds whatever the wording; `ScriptWording` is the script's own.
   */
  datatype Wording = Wording(
    hookInstalledText: string,
    hookNotDetectedText: string,
    hookWrapperEvidence: string,
    approvalGap: string,
    installHookMitigation: string,
    leastPrivilegeObserved: string,
    leastPrivilegeEvidence: string,
    leastPrivilegeGap: string,
    leastPrivilegeMitigation: string,
    timeoutObserved: string,
    timeoutEvidence: string,
    timeoutGap: string,
    timeoutMitigation: string,
    auditPopulatedText: string,
    auditEmptyText: string,
    auditGap: string,
    auditMitigation: string,
    portsEvidence: string,
    portsGap: string,
    portsMitigation: string,
    noInsecureText: string,
    insecureText: string,
    insecureGap: string,
    noInsecureGap: string,
    insecureMitigation: string,
    allowlistText: string,
    noAllowlistText: string,
    allowlistEvidence: string,
    allowlistGap: string,
    allowlistMitigation: string,
    mentionText: string,
    noMentionText: string,
    mentionEvidence: string,
    mentionGap: string,
    mentionMitigation: string,
    loopbackText: string,
    exposedText: string,
    loopbackEvidence: string,
    loopbackGap: string,
    loopbackMitigation: string,
    hardenedText: string,
    tooOpenText: string,
    permissionsEvidence: string,
    permissionsGap: string,
    permissionsMitigation: string,
    hookPresentText: string,
    hookMissingText: string,
    hookEvidence: string,
    hookGap: string,
    hookMitigation: string,
    guardedText: string,
    unguardedText: string,
    altPathsEvidence: string,
    altPathsGap: string,
    altPathsMitigation: string,
    backupsText: string,
    noBackupsText: string,
    backupEvidence: string,
    backupGap: string,
    backupMitigation: string,
    updateEvidence: string,
    updateGap: string,
    updateMitigation: string)

  /** The sentences `build_assessment` writes, verbatim. */
  const ScriptWording := Wording(
    hookInstalledText := "Runtime privileged execution hook is installed.",
    hookNotDetectedText := "Runtime privileged execution hook not detected.",
    hookWrapperEvidence := "Checked for ~/.openclaw/bin/sudo wrapper installed by cyber-security-engineer.",
    approvalGap := "Approval-first execution is not enforced for privileged actions.",
    installHookMitigation := "Run cyber-security-engineer/scripts/install-openclaw-runtime-hook.sh and restart OpenClaw gateway.",
    leastPrivilegeObserved := "Gateway local/loopback+token controls are present; state integrity warnings may still appear.",
    leastPrivilegeEvidence := "openclaw.json has local mode, loopback bind, and token auth; doctor output checked for integrity warnings.",
    leastPrivilegeGap := "Least-privilege posture is not complete while writable/integrity warnings remain.",
    leastPrivilegeMitigation := "Fix state dir ownership/permissions and enforce command allowlist/approval defaults.",
    timeoutObserved := "30-minute timeout logic exists in root_session_guard.py.",
    timeoutEvidence := "Timeout guard script is installed with preflight drop logic.",
    timeoutGap := "No gap identified for timeout script presence.",
    timeoutMitigation := "Ensure all privileged paths route through guarded_privileged_exec.py.",
    auditPopulatedText := "Privileged audit log is populated.",
    auditEmptyText := "Privileged audit log not yet populated.",
    auditGap := "Audit trail is missing or empty.",
    auditMitigation := "Run privileged tasks via guarded_privileged_exec.py to populate audit logs.",
    portsEvidence := "port_monitor.py live output evaluated against approved_ports baseline.",
    portsGap := "Baseline missing or incomplete when unapproved findings exist.",
    portsMitigation := "Populate ~/.openclaw/security/approved_ports.json and remove unnecessary listeners.",
    noInsecureText := "No insecure legacy port findings detected.",
    insecureText := "Insecure ports detected.",
    insecureGap := "Legacy insecure protocol ports should be closed or migrated.",
    noInsecureGap := "None observed in current snapshot.",
    insecureMitigation := "Enforce baseline checks to block insecure service ports.",
    allowlistText := "Channel allowlists are configured.",
    noAllowlistText := "Channel allowlists not detected.",
    allowlistEvidence := "Checked channels.*.allowFrom in openclaw.json.",
    allowlistGap := "Inbound channel allowlists are missing, allowing unsolicited access.",
    allowlistMitigation := "Set channels.<channel>.allowFrom to trusted sender IDs.",
    mentionText := "Group chats require explicit mentions.",
    noMentionText := "Group mention requirement not detected.",
    mentionEvidence := "Checked channels.*.groups.requireMention or messages.groupChat.mentionPatterns.",
    mentionGap := "Group chats can trigger the agent without explicit mention.",
    mentionMitigation := "Set requireMention true for group configs or define mentionPatterns.",
    loopbackText := "Gateway is configured for local/loopback with token auth.",
    exposedText := "Gateway exposure settings are weak.",
    loopbackEvidence := "Checked gateway.mode, gateway.bind, and auth.mode in openclaw.json.",
    loopbackGap := "Gateway may be exposed publicly or without token auth.",
    loopbackMitigation := "Set gateway.mode=local, gateway.bind=loopback, auth.mode=token.",
    hardenedText := "OpenClaw config directory and file permissions are hardened.",
    tooOpenText := "OpenClaw permissions are too open or unknown.",
    permissionsEvidence := "Checked ~/.openclaw and ~/.openclaw/openclaw.json permissions.",
    permissionsGap := "Secrets and configs may be readable by other users.",
    permissionsMitigation := "chmod 700 ~/.openclaw; chmod 600 ~/.openclaw/openclaw.json",
    hookPresentText := "Runtime privileged execution hook installed.",
    hookMissingText := "Runtime privileged execution hook missing.",
    hookEvidence := "Checked ~/.openclaw/bin/sudo wrapper.",
    hookGap := "Privileged actions can bypass approval enforcement.",
    hookMitigation := "Install runtime hook and restart OpenClaw gateway.",
    guardedText := "Alternate privilege tools are present but guarded.",
    unguardedText := "Alternate privilege tools may bypass guard.",
    altPathsEvidence := "Checked for presence of su/doas binaries.",
    altPathsGap := "Privilege escalation paths could bypass approval enforcement.",
    altPathsMitigation := "Restrict su/doas usage or wrap via policy controls.",
    backupsText := "OpenClaw backups found.",
    noBackupsText := "OpenClaw backups not detected.",
    backupEvidence := "Checked ~/.openclaw/backups or ~/.openclaw/backup.",
    backupGap := "Recovery posture may be weak without backups.",
    backupMitigation := "Configure backup of ~/.openclaw and audit logs.",
    updateEvidence := "openclaw --version output captured.",
    updateGap := "Update cadence not validated.",
    updateMitigation := "Review release notes and update regularly.")


  function PrivilegeApprovalCheck(w: Wording, approvalEnforced: bool): CheckFields {
    CheckFields(
      if approvalEnforced then Compliant else Violation, High,
      if approvalEnforced then w.hookInstalledText else w.hookNotDetectedText,
      w.hookWrapperEvidence, w.approvalGap, w.installHookMitigation, SecurityEngineering, "2026-03-15")
  }

  function LeastPrivilegeCheck(w: Wording, loopback: bool, writableIssue: bool): CheckFields {
    CheckFields(
      if loopback && !writableIssue then Compliant else Partial, High,
      w.leastPrivilegeObserved, w.leastPrivilegeEvidence, w.leastPrivilegeGap, w.leastPrivilegeMitigation,
      PlatformSecurity, "2026-03-07")
  }

  function ElevationTimeoutCheck(w: Wording): CheckFields {
    CheckFields(
      Compliant, Medium, w.timeoutObserved, w.timeoutEvidence, w.timeoutGap, w.timeoutMitigation,
      SecurityEngineering, "2026-03-15")
  }

  const AuditLogPathLabel := "Audit log path: "

  function AuditLoggingCheck(w: Wording, auditOk: bool, auditLogPath: string): CheckFields {
    CheckFields(
      if auditOk then Compliant else Partial, Medium,
      if auditOk then w.auditPopulatedText else w.auditEmptyText,
      AuditLogPathLabel + auditLogPath, w.auditGap, w.auditMitigation, SecOps, "2026-03-22")
  }

  const DetectedLabel := "Detected "
  const ListeningLabel := " listening services with "
  const UnapprovedLabel := " unapproved findings."

  function OpenPortsCheck(w: Wording, listening: nat, unapproved: nat): CheckFields {
    CheckFields(
      if unapproved == 0 then Compliant else Violation, Medium,
      DetectedLabel + NatToString(listening) + ListeningLabel + NatToString(unapproved) + UnapprovedLabel,
      w.portsEvidence, w.portsGap, w.portsMitigation, Infrastructure, "2026-02-28")
  }

  const InsecureCountLabel := "Insecure findings count from port_monitor.py: "

  function InsecurePortsCheck(w: Wording, insecure: nat): CheckFields {
    CheckFields(
      if insecure == 0 then Compliant else Violation, High,
      if insecure == 0 then w.noInsecureText else w.insecureText,
      InsecureCountLabel + NatToString(insecure) + ".",
      if insecure != 0 then w.insecureGap else w.noInsecureGap,
      w.insecureMitigation, NetworkSecurity, "2026-04-01")
  }

  function ChannelAllowlistCheck(w: Wording, allowlistOk: bool): CheckFields {
    CheckFields(
      if allowlistOk then Compliant else Violation, High,
      if allowlistOk then w.allowlistText else w.noAllowlistText,
      w.allowlistEvidence, w.allowlistGap, w.allowlistMitigation, PlatformSecurity, "2026-03-05")
  }

  function GroupMentionsCheck(w: Wording, mentionOk: bool): CheckFields {
    CheckFields(
      if mentionOk then Compliant else Partial, Medium,
      if mentionOk then w.mentionText else w.noMentionText,
      w.mentionEvidence, w.mentionGap, w.mentionMitigation, PlatformSecurity, "2026-03-05")
  }

  function GatewayLoopbackCheck(w: Wording, loopbackOk: bool): CheckFields {
    CheckFields(
      if loopbackOk then Compliant else Violation, High,
      if loopbackOk then w.loopbackText else w.exposedText,
      w.loopbackEvidence, w.loopbackGap, w.loopbackMitigation, PlatformSecurity, "2026-03-07")
  }

  function SecretsPermissionsCheck(w: Wording, secretsOk: bool): CheckFields {
    CheckFields(
      if secretsOk then Compliant else Partial, Medium,
      if secretsOk then w.hardenedText else w.tooOpenText,
      w.permissionsEvidence, w.permissionsGap, w.permissionsMitigation, SecOps, "2026-03-10")
  }

  function RuntimeHookCheck(w: Wording, hookOk: bool): CheckFields {
    CheckFields(
      if hookOk then Compliant else Violation, High,
      if hookOk then w.hookPresentText else w.hookMissingText,
      w.hookEvidence, w.hookGap, w.hookMitigation, SecurityEngineering, "2026-03-01")
  }

  function AlternatePathsCheck(w: Wording, altPaths: bool, hookOk: bool): CheckFields {
    var altOk := !altPaths || hookOk;
    CheckFields(
      if altOk then Compliant else Partial, Medium,
      if altOk then w.guardedText else w.unguardedText,
      w.altPathsEvidence, w.altPathsGap, w.altPathsMitigation, SecurityEngineering, "2026-03-20")
  }

  function BackupCheck(w: Wording, backupOk: bool): CheckFields {
    CheckFields(
      if backupOk then Compliant else Partial, Low,
      if backupOk then w.backupsText else w.noBackupsText,
      w.backupEvidence, w.backupGap, w.backupMitigation, PlatformSecurity, "2026-03-30")
  }

  const VersionLabel := "OpenClaw version: "

  function UpdateHygieneCheck(w: Wording, versionText: string): CheckFields {
    CheckFields(
      if versionText != "" then Partial else Violation, Low,
      VersionLabel + (if versionText != "" then versionText else "unknown"),
      w.updateEvidence, w.updateGap, w.updateMitigation, PlatformSecurity, "2026-04-15")
  }

  /** The `check_id`s of the `set_check` calls of `build_assessment`. */
  const CheckIds: set<string> := {
    "privilege_approval_required", "least_privilege_enforced", "elevation_timeout_30m",
    "audit_logging_privileged_actions", "open_ports_approved", "insecure_ports_remediated",
    "channel_allowlist_configured", "group_mentions_required", "gateway_loopback_only",
    "secrets_permissions_hardened", "runtime_privilege_hook_installed",
    "alternate_privilege_paths_restricted", "backup_configured", "update_hygiene"}

  /** `build_assessment`'s fourteen `set_check` calls, in order, as data. */
  function Rules(obs: Observations, probes: Probes, w: Wording): Calls {
    var c1 := Then(NoCalls, "privilege_approval_required", PrivilegeApprovalCheck(w, probes.hookInstalled));
    var c2 := Then(c1, "least_privilege_enforced", LeastPrivilegeCheck(w, obs.loopback, obs.writableIssue));
    var c3 := Then(c2, "elevation_timeout_30m", ElevationTimeoutCheck(w));
    var c4 := Then(c3, "audit_logging_privileged_actions", AuditLoggingCheck(w, probes.auditLogPopulated, probes.auditLogPath));
    var c5 := Then(c4, "open_ports_approved", OpenPortsCheck(w, obs.listening, obs.unapproved));
    var c6 := Then(c5, "insecure_ports_remediated", InsecurePortsCheck(w, obs.insecure));
    var c7 := Then(c6, "channel_allowlist_configured", ChannelAllowlistCheck(w, obs.allowlist));
    var c8 := Then(c7, "group_mentions_required", GroupMentionsCheck(w, obs.mentions));
    var c9 := Then(c8, "gateway_loopback_only", GatewayLoopbackCheck(w, obs.loopback));
    var c10 := Then(c9, "secrets_permissions_hardened", SecretsPermissionsCheck(w, PermissionsHardened(probes.stateDirMode) && PermissionsHardened(probes.configFileMode)));
    var c11 := Then(c10, "runtime_privilege_hook_installed", RuntimeHookCheck(w, probes.hookInstalled));
    var c12 := Then(c11, "alternate_privilege_paths_restricted", AlternatePathsCheck(w, probes.altPrivilegeTools, probes.hookInstalled));
    var c13 := Then(c12, "backup_configured", BackupCheck(w, probes.backupsPresent));
    Then(c13, "update_hygiene", UpdateHygieneCheck(w, obs.versionText))
  }

  lemma RulesIdsWithin(obs: Observations, probes: Probes, w: Wording)
    ensures CallIds(Rules(obs, probes, w)) <= CheckIds
  {
    CallStep();
    assert AllIn(Rules(obs, probes, w), CheckIds);
    AllInIds(Rules(obs, probes, w), CheckIds);
  }

  lemma RulesIdsCover(obs: Observations, probes: Probes, w: Wording)
    ensures CheckIds <= CallIds(Rules(obs, probes, w))
  {
    CallStep();
  }

  /** The rules set exactly the fourteen check ids. */
  lemma RulesIds(obs: Observations, probes: Probes, w: Wording)
    ensures CallIds(Rules(obs, probes, w)) == CheckIds
  {
    RulesIdsWithin(obs, probes, w);
    RulesIdsCover(obs, probes, w);
  }

  /** The last call for each control whose status the lemmas below pin down. */
  lemma LeastPrivilegeRule(obs: Observations, probes: Probes, w: Wording)
    ensures FieldsFor(Rules(obs, probes, w), "least_privilege_enforced")
            == Some(LeastPrivilegeCheck(w, obs.loopback, obs.writableIssue))
  {
    CallStep();
  }

  lemma ElevationTimeoutRule(obs: Observations, probes: Probes, w: Wording)
    ensures FieldsFor(Rules(obs, probes, w), "elevation_timeout_30m") == Some(ElevationTimeoutCheck(w))
  {
    CallStep();
  }

  lemma OpenPortsRule(obs: Observations, probes: Probes, w: Wording)
    ensures FieldsFor(Rules(obs, probes, w), "open_ports_approved")
            == Some(OpenPortsCheck(w, obs.listening, obs.unapproved))
  {
    CallStep();
  }

  lemma AlternatePathsRule(obs: Observations, probes: Probes, w: Wording)
    ensures FieldsFor(Rules(obs, probes, w), "alternate_privilege_paths_restricted")
            == Some(AlternatePathsCheck(w, probes.altPrivilegeTools, probes.hookInstalled))
  {
    CallStep();
  }

  lemma UpdateHygieneRule(obs: Observations, probes: Probes, w: Wording)
    ensures FieldsFor(Rules(obs, probes, w), "update_hygiene") == Some(UpdateHygieneCheck(w, obs.versionText))
  {
    CallStep();
  }

  // ---------------------------------------------------------------------------
  // Reading the signals
  // ---------------------------------------------------------------------------

  /** Why `build_assessment` raises instead of returning. */
  datatype Fault =
    | AssessmentNotObject        // `assessment.get` on a non-dict
    | ChecksNotIterable          // `for c in checks` on null, a boolean or a number
    | MalformedCheck             // `c["check_id"]` fails, or the id is not text
    | PortReportNotObject        // `port_report.get` on a non-dict
    | FindingsNotIterable        // `for f in findings` on a non-iterable
    | FindingNotObject           // `f.get("type")` on a non-dict finding
    | GatewayNotObject           // `gateway.get("auth")` on a non-dict gateway
    | ListeningServicesUnsized   // `len(...)` of listening services without a length
    | MetadataNotObject          // `assessment["metadata"][...] = ...` fails

  /** The command outputs and the parsed configuration and port report. */
  datatype Signals = Signals(
    configText: string,
    configJson: Json,        // `JNull` when the configuration is missing or unparsable
    doctorText: string,
    versionText: string,
    portReport: Json)

  /** A finding object whose `type` is `t`. */
  predicate HasType(finding: Json, t: string) {
    finding.JObj? && Get(finding.fields, "type") == Some(JStr(t))
  }

  /** `len([f for f in findings if f.get("type") == t])`. */
  function CountType(findings: seq<Json>, t: string): (n: nat)
    ensures n <= |findings|
    ensures n == 0 <==> forall i :: 0 <= i < |findings| ==> !HasType(findings[i], t)
    ensures n == |findings| <==> forall i :: 0 <= i < |findings| ==> HasType(findings[i], t)
  {
    if findings == [] then 0
    else
      var rest := CountType(findings[1..], t);
      assert forall i :: 1 <= i < |findings| ==> findings[i] == findings[1..][i - 1];
      (if HasType(findings[0], t) then 1 else 0) + rest
  }

  /** `port_report.get("findings", [])`, iterated, every item an object. */
  function Findings(portReport: Json): (r: Result<seq<Json>, Fault>)
    ensures !portReport.JObj? ==> r == Err(PortReportNotObject)
    ensures portReport.JObj? ==>
      var items := Iterate(GetOr(portReport.fields, "findings", JArr([])));
      && (r.Err? <==> items.None? || exists i :: 0 <= i < |items.value| && !items.value[i].JObj?)
      && (r.Ok? ==> items == Some(r.value))
      && (r == Err(FindingsNotIterable) <==> items.None?)
    ensures r.Ok? ==> forall i :: 0 <= i < |r.value| ==> r.value[i].JObj?
    // only an array can yield findings: a dict or str iterates to strings
    ensures r.Ok? && r.value != [] ==> GetOr(portReport.fields, "findings", JArr([])).JArr?
  {
    if !portReport.JObj? then Err(PortReportNotObject)
    else
      match Iterate(GetOr(portReport.fields, "findings", JArr([])))
      case None => Err(FindingsNotIterable)
      case Some(items) =>
        if forall i :: 0 <= i < |items| ==> items[i].JObj? then
          assert items != [] ==> items[0].JObj?;
          Ok(items)
        else Err(FindingNotObject)
  }

  /** Everything `build_assessment` derives from its signals, in the order it raises. */
  function Observe(signals: Signals): Result<Observations, Fault> {
    match Findings(signals.portReport)
    case Err(e) => Err(e)
    case Ok(findings) =>
      match GatewayLoopbackConfigured(signals.configJson, signals.configText)
      case None => Err(GatewayNotObject)
      case Some(loopback) =>
        match Len(GetOr(signals.portReport.fields, "listening_services", JArr([])))
        case None => Err(ListeningServicesUnsized)
        case Some(listening) =>
          Ok(Observations(
            loopback,
            Contains(Lower(signals.doctorText), "not writable"),
            listening,
            CountType(findings, "unapproved-port"),
            CountType(findings, "insecure-port"),
            signals.configJson.JObj? && FindChannelAllowlists(signals.configJson),
            signals.configJson.JObj? && GroupMentionsRequired(signals.configJson),
            Strip(signals.versionText)))
  }

  // ---------------------------------------------------------------------------
  // Indexing and sorting the checks
  // ---------------------------------------------------------------------------

  /** `c["check_id"]` when `c` is an object holding a text id. */
  function CheckIdOf(c: Json): Option<string> {
    if c.JObj? then
      match Get(c.fields, "check_id")
      case Some(JStr(id)) => Some(id)
      case _ => None
    else None
  }

  function IdsOf(checks: seq<Json>): set<string> {
    set i | 0 <= i < |checks| && CheckIdOf(checks[i]).Some? :: CheckIdOf(checks[i]).value
  }

  /** `rec` is the members of the last check in `checks` with this id. */
  predicate LastWithId(checks: seq<Json>, id: string, rec: Record) {
    exists i :: 0 <= i < |checks| && checks[i] == JObj(rec) && CheckIdOf(checks[i]) == Some(id)
                && forall j :: i < j < |checks| ==> CheckIdOf(checks[j]) != Some(id)
  }

  lemma LastWithIdExtend(checks: seq<Json>, c: Json, id: string, rec: Record)
    requires LastWithId(checks, id, rec) && CheckIdOf(c) != Some(id)
    ensures LastWithId(checks + [c], id, rec)
  {
    var i :| 0 <= i < |checks| && checks[i] == JObj(rec) && CheckIdOf(checks[i]) == Some(id)
             && forall j :: i < j < |checks| ==> CheckIdOf(checks[j]) != Some(id);
    var s := checks + [c];
    assert s[i] == checks[i];
    forall j | i < j < |s| ensures CheckIdOf(s[j]) != Some(id) {
      if j < |checks| { assert s[j] == checks[j]; }
    }
  }

  /** Appending a check with a text id adds that id. */
  lemma IdsOfAppend(checks: seq<Json>, c: Json, id: string)
    requires CheckIdOf(c) == Some(id)
    ensures IdsOf(checks + [c]) == IdsOf(checks) + {id}
  {
    var s := checks + [c];
    forall x | x in IdsOf(s) ensures x in IdsOf(checks) + {id} {
      var j :| 0 <= j < |s| && CheckIdOf(s[j]) == Some(x);
      if j < |checks| { assert checks[j] == s[j]; }
    }
    forall x | x in IdsOf(checks) ensures x in IdsOf(s) {
      var j :| 0 <= j < |checks| && CheckIdOf(checks[j]) == Some(x);
      assert s[j] == checks[j];
    }
    assert s[|checks|] == c;
  }

  /** `byId` is the dictionary `{c["check_id"]: c for c in checks}`. */
  ghost predicate IndexedBy(checks: seq<Json>, byId: map<string, Record>) {
    byId.Keys == IdsOf(checks) && IdsStored(byId)
    && forall id :: id in byId ==> LastWithId(checks, id, byId[id])
  }

  /** Storing an appended check under its id indexes the longer list. */
  lemma IndexStep(checks: seq<Json>, c: Json, id: string, byId: map<string, Record>)
    requires CheckIdOf(c) == Some(id) && IndexedBy(checks, byId)
    ensures IndexedBy(checks + [c], byId[id := c.fields])
  {
    IdsOfAppend(checks, c, id);
    var after := byId[id := c.fields];
    forall k | k in after ensures LastWithId(checks + [c], k, after[k]) {
      if k == id {
        assert (checks + [c])[|checks|] == c;
      } else {
        LastWithIdExtend(checks, c, k, byId[k]);
      }
    }
  }

  /** `{c["check_id"]: c for c in checks}`: the last check with an id wins. */
  method IndexChecks(checks: seq<Json>) returns (r: Result<map<string, Record>, Fault>)
    ensures r.Err? <==> exists i :: 0 <= i < |checks| && CheckIdOf(checks[i]).None?
    ensures r.Err? ==> r.error == MalformedCheck
    ensures r.Ok? ==> IndexedBy(checks, r.value)
  {
    var byId: map<string, Record> := map[];
    for i := 0 to |checks|
      invariant forall j :: 0 <= j < i ==> CheckIdOf(checks[j]).Some?
      invariant IndexedBy(checks[..i], byId)
    {
      var c := checks[i];
      var id := CheckIdOf(c);
      if id.None? {
        return Err(MalformedCheck);
      }
      assert checks[..i + 1] == checks[..i] + [c];
      IndexStep(checks[..i], c, id.value, byId);
      byId := byId[id.value := c.fields];
    }
    assert checks[..|checks|] == checks;
    return Ok(byId);
  }

  /** `m` is the least id of `ids` in code-point order. */
  predicate IsLeast(m: string, ids: set<string>) {
    m in ids && forall x :: x in ids && x != m ==> StrLess(m, x)
  }

  lemma {:induction false} LeastExists(ids: set<string>)
    requires ids != {}
    ensures exists m :: IsLeast(m, ids)
    decreases |ids|
  {
    var x :| x in ids;
    var rest := ids - {x};
    if rest == {} {
      assert ids == {x};
      assert IsLeast(x, ids);
    } else {
      LeastExists(rest);
      var m :| IsLeast(m, rest);
      if StrLess(x, m) {
        forall y | y in ids && y != x ensures StrLess(x, y) {
          if y != m { StrLessTransitive(x, m, y); }
        }
        assert IsLeast(x, ids);
      } else {
        StrLessTotal(x, m);
        assert IsLeast(m, ids);
      }
    }
  }

  lemma LeastUnique(ids: set<string>)
    ensures forall m, n :: IsLeast(m, ids) && IsLeast(n, ids) ==> m == n
  {
    forall m, n | IsLeast(m, ids) && IsLeast(n, ids) ensures m == n {
      if m != n {
        StrLessTransitive(m, n, m);
        StrLessIrreflexive(m);
      }
    }
  }

  /** The ids in strictly increasing code-point order, as `sorted` orders the check ids. */
  function SortedIds(ids: set<string>): (r: seq<string>)
    ensures |r| == |ids|
    ensures forall x :: x in r <==> x in ids
    ensures forall i, j :: 0 <= i < j < |r| ==> StrLess(r[i], r[j])
    decreases |ids|
  {
    if ids == {} then []
    else
      LeastExists(ids);
      LeastUnique(ids);
      var m :| IsLeast(m, ids);
      var rest := SortedIds(ids - {m});
      var r := [m] + rest;
      assert forall j :: 1 <= j < |r| ==> r[j] == rest[j - 1] && r[j] in ids - {m};
      r
  }

  /** The record list of `sorted(checks_by_id.values(), ...)`. */
  function SortedChecks(byId: map<string, Record>): seq<Json> {
    var ids := SortedIds(byId.Keys);
    seq(|ids|, i requires 0 <= i < |ids| => JObj(byId[ids[i]]))
  }

  /** `str(c.get("check_id", ""))` for the checks the model keeps. */
  function IdText(c: Json): string {
    match CheckIdOf(c)
    case Some(id) => id
    case None => ""
  }

  predicate SortedById(list: seq<Json>) {
    forall i, j :: 0 <= i < j < |list| ==> StrLess(IdText(list[i]), IdText(list[j]))
  }

  function ListIds(list: seq<Json>): set<string> {
    set i | 0 <= i < |list| :: IdText(list[i])
  }

  /** In a list sorted by id, every id occurs once. */
  lemma SortedIdsOnce(list: seq<Json>)
    requires SortedById(list)
    ensures forall i, j :: 0 <= i < |list| && 0 <= j < |list| && i != j ==> IdText(list[i]) != IdText(list[j])
  {
    forall i, j | 0 <= i < |list| && 0 <= j < |list| && i != j
      ensures IdText(list[i]) != IdText(list[j])
    {
      if IdText(list[i]) == IdText(list[j]) {
        StrLessIrreflexive(IdText(list[i]));
      }
    }
  }

  /** The i-th record of the sorted list is the record of the i-th least id. */
  lemma SortedChecksAt(byId: map<string, Record>)
    requires IdsStored(byId)
    ensures |SortedChecks(byId)| == |SortedIds(byId.Keys)|
    ensures forall i :: 0 <= i < |SortedChecks(byId)| ==>
              CheckIdOf(SortedChecks(byId)[i]) == Some(SortedIds(byId.Keys)[i])
              && SortedChecks(byId)[i] == JObj(byId[SortedIds(byId.Keys)[i]])
  {
    var ids := SortedIds(byId.Keys);
    var list := SortedChecks(byId);
    forall i | 0 <= i < |list|
      ensures CheckIdOf(list[i]) == Some(ids[i])
    {
      assert list[i] == JObj(byId[ids[i]]);
      assert Get(byId[ids[i]], "check_id") == Some(JStr(ids[i]));
    }
  }

  /** A list holding the records of `ids` in order, when `ids` are the table's ids in increasing order. */
  lemma {:induction false} ListedInOrder(byId: map<string, Record>, ids: seq<string>, list: seq<Json>)
    requires |list| == |ids|
    requires forall x :: x in ids <==> x in byId
    requires forall i, j :: 0 <= i < j < |ids| ==> StrLess(ids[i], ids[j])
    requires forall i :: 0 <= i < |list| ==> CheckIdOf(list[i]) == Some(ids[i]) && list[i] == JObj(byId[ids[i]])
    ensures forall i :: 0 <= i < |list| ==>
              CheckIdOf(list[i]).Some? && IdText(list[i]) in byId && list[i] == JObj(byId[IdText(list[i])])
    ensures SortedById(list)
    ensures ListIds(list) == byId.Keys
  {
    assert forall i :: 0 <= i < |list| ==> IdText(list[i]) == ids[i];
    forall x | x in byId.Keys ensures x in ListIds(list) {
      var i :| 0 <= i < |ids| && ids[i] == x;
      assert IdText(list[i]) == x;
    }
  }

  /**
   * `sorted(checks_by_id.values(), key=lambda c: str(c.get("check_id", "")))`:
   * every record once, under strictly increasing ids.
   */
  lemma SortedChecksOrdered(byId: map<string, Record>)
    requires IdsStored(byId)
    ensures forall i :: 0 <= i < |SortedChecks(byId)| ==>
              CheckIdOf(SortedChecks(byId)[i]).Some? && IdText(SortedChecks(byId)[i]) in byId
              && SortedChecks(byId)[i] == JObj(byId[IdText(SortedChecks(byId)[i])])
    ensures SortedById(SortedChecks(byId))
    ensures ListIds(SortedChecks(byId)) == byId.Keys
  {
    SortedChecksAt(byId);
    ListedInOrder(byId, SortedIds(byId.Keys), SortedChecks(byId));
  }

  // ---------------------------------------------------------------------------
  // `build_assessment`
  // ---------------------------------------------------------------------------

  /** The fault `build_assessment` raises on these inputs, if any. */
  function FaultOf(assessment: Json, signals: Signals): Option<Fault> {
    if !assessment.JObj? then Some(AssessmentNotObject)
    else
      match Iterate(GetOr(assessment.fields, "checks", JArr([])))
      case None => Some(ChecksNotIterable)
      case Some(checks) =>
        if exists i :: 0 <= i < |checks| && CheckIdOf(checks[i]).None? then Some(MalformedCheck)
        else
          match Observe(signals)
          case Err(e) => Some(e)
          case Ok(_) =>
            match Get(assessment.fields, "metadata")
            case Some(JObj(_)) => None
            case _ => Some(MetadataNotObject)
  }

  /** The checks the assessment carried in. */
  function IncomingChecks(assessment: Json): seq<Json> {
    if assessment.JObj? then
      match Iterate(GetOr(assessment.fields, "checks", JArr([])))
      case Some(checks) => checks
      case None => []
    else []
  }

  /** The check list of an output assessment. */
  function OutputChecks(out: Json): seq<Json> {
    if out.JObj? then
      match Get(out.fields, "checks")
      case Some(JArr(list)) => list
      case _ => []
    else []
  }

  /** Some check of `list` with this id has this status. */
  predicate StatusIs(list: seq<Json>, id: string, status: string) {
    exists i :: 0 <= i < |list| && IdText(list[i]) == id
                && list[i].JObj? && Get(list[i].fields, "status") == Some(JStr(status))
  }

  /** The metadata object with `generated_at_utc` set and every other member kept. */
  ghost predicate Stamped(before: Json, after: Json, generatedAt: string) {
    before.JObj? && after.JObj?
    && Get(after.fields, "generated_at_utc") == Some(JStr(generatedAt))
    && forall key :: key != "generated_at_utc" ==> Get(after.fields, key) == Get(before.fields, key)
  }

  /** `build_assessment`'s fourteen `set_check` calls, on a table none was made on yet. */
  method ApplyRules(table: CheckTable, obs: Observations, probes: Probes, w: Wording)
    requires table.Valid() && table.applied == NoCalls
    modifies table
    ensures table.Valid() && table.initial == old(table.initial)
    ensures table.applied == Rules(obs, probes, w)
  {
    table.SetCheck("privilege_approval_required", PrivilegeApprovalCheck(w, probes.hookInstalled));
    table.SetCheck("least_privilege_enforced", LeastPrivilegeCheck(w, obs.loopback, obs.writableIssue));
    table.SetCheck("elevation_timeout_30m", ElevationTimeoutCheck(w));
    table.SetCheck("audit_logging_privileged_actions", AuditLoggingCheck(w, probes.auditLogPopulated, probes.auditLogPath));
    table.SetCheck("open_ports_approved", OpenPortsCheck(w, obs.listening, obs.unapproved));
    table.SetCheck("insecure_ports_remediated", InsecurePortsCheck(w, obs.insecure));
    table.SetCheck("channel_allowlist_configured", ChannelAllowlistCheck(w, obs.allowlist));
    table.SetCheck("group_mentions_required", GroupMentionsCheck(w, obs.mentions));
    table.SetCheck("gateway_loopback_only", GatewayLoopbackCheck(w, obs.loopback));
    var secretsOk := PermissionsHardened(probes.stateDirMode) && PermissionsHardened(probes.configFileMode);
    table.SetCheck("secrets_permissions_hardened", SecretsPermissionsCheck(w, secretsOk));
    table.SetCheck("runtime_privilege_hook_installed", RuntimeHookCheck(w, probes.hookInstalled));
    table.SetCheck("alternate_privilege_paths_restricted", AlternatePathsCheck(w, probes.altPrivilegeTools, probes.hookInstalled));
    table.SetCheck("backup_configured", BackupCheck(w, probes.backupsPresent));
    table.SetCheck("update_hygiene", UpdateHygieneCheck(w, obs.versionText));
  }

  /**
   * The record a control's `set_check` started from keeps its members other
   * than the eight: the last incoming check with that id, or `{"check_id": id}`.
   */
  ghost predicate KeptFrom(rec: Record, incoming: seq<Json>, id: string) {
    if id in IdsOf(incoming) then
      exists prior :: LastWithId(incoming, id, prior)
                      && forall key :: !IsFieldName(key) ==> Get(rec, key) == Get(prior, key)
    else
      forall key :: !IsFieldName(key) ==> Get(rec, key) == Get(NewCheck(id), key)
  }

  /**
   * The check list `build_assessment` writes, for incoming checks `incoming`
   * and the `set_check` calls `calls`: one record per id, in increasing id
   * order; an id some call sets holds what its last call wrote and keeps the
   * rest of the record it started from; any other id holds the last incoming
   * check with that id, untouched.
   */
  ghost predicate ListedFrom(list: seq<Json>, incoming: seq<Json>, calls: Calls) {
    SortedById(list)
    && ListIds(list) == IdsOf(incoming) + CallIds(calls)
    && (forall i :: 0 <= i < |list| ==> list[i].JObj? && CheckIdOf(list[i]).Some?)
    && (forall i :: 0 <= i < |list| && IdText(list[i]) in CallIds(calls) ==>
          FieldsFor(calls, IdText(list[i])).Some?
          && FieldsSet(list[i].fields, FieldsFor(calls, IdText(list[i])).value)
          && KeptFrom(list[i].fields, incoming, IdText(list[i])))
    && (forall i :: 0 <= i < |list| && IdText(list[i]) !in CallIds(calls) ==>
          LastWithId(incoming, IdText(list[i]), list[i].fields))
  }

  /** After the calls, a record some call names holds what the last one wrote and what it started from. */
  lemma TableListedControls(incoming: seq<Json>, indexed: map<string, Record>, calls: Calls)
    requires indexed.Keys == IdsOf(incoming)
    requires forall id :: id in indexed ==> LastWithId(incoming, id, indexed[id])
    ensures forall id :: id in CallIds(calls) ==>
              id in UpsertAll(indexed, calls)
              && FieldsFor(calls, id).Some?
              && FieldsSet(UpsertAll(indexed, calls)[id], FieldsFor(calls, id).value)
              && KeptFrom(UpsertAll(indexed, calls)[id], incoming, id)
  {
    forall id | id in CallIds(calls)
      ensures id in UpsertAll(indexed, calls)
              && FieldsFor(calls, id).Some?
              && FieldsSet(UpsertAll(indexed, calls)[id], FieldsFor(calls, id).value)
              && KeptFrom(UpsertAll(indexed, calls)[id], incoming, id)
    {
      UpsertAllDecides(indexed, calls, id);
      if id in indexed {
        assert LastWithId(incoming, id, indexed[id]);
      }
    }
  }

  /** After the calls, a record no call names is the last incoming check with its id. */
  lemma TableListedOthers(incoming: seq<Json>, indexed: map<string, Record>, calls: Calls)
    requires indexed.Keys == IdsOf(incoming)
    requires forall id :: id in indexed ==> LastWithId(incoming, id, indexed[id])
    ensures forall id :: id in UpsertAll(indexed, calls) && id !in CallIds(calls) ==>
              LastWithId(incoming, id, UpsertAll(indexed, calls)[id])
  {
    UpsertAllKeys(indexed, calls);
    forall id | id in UpsertAll(indexed, calls) && id !in CallIds(calls)
      ensures LastWithId(incoming, id, UpsertAll(indexed, calls)[id])
    {
      UpsertAllUntouched(indexed, calls, id);
    }
  }

  /** A sorted list of a table's records, one per id, inherits what the table says of each id. */
  lemma ListedRecords(list: seq<Json>, byId: map<string, Record>, incoming: seq<Json>, calls: Calls)
    requires SortedById(list) && ListIds(list) == byId.Keys && byId.Keys == IdsOf(incoming) + CallIds(calls)
    requires forall i :: 0 <= i < |list| ==>
               CheckIdOf(list[i]).Some? && IdText(list[i]) in byId && list[i] == JObj(byId[IdText(list[i])])
    requires forall id :: id in CallIds(calls) ==>
               id in byId
               && FieldsFor(calls, id).Some?
               && FieldsSet(byId[id], FieldsFor(calls, id).value)
               && KeptFrom(byId[id], incoming, id)
    requires forall id :: id in byId && id !in CallIds(calls) ==> LastWithId(incoming, id, byId[id])
    ensures ListedFrom(list, incoming, calls)
  {
  }

  /** Indexing the incoming checks, making the calls and sorting gives such a list. */
  lemma TableListed(incoming: seq<Json>, indexed: map<string, Record>, calls: Calls)
    requires indexed.Keys == IdsOf(incoming) && IdsStored(indexed)
    requires forall id :: id in indexed ==> LastWithId(incoming, id, indexed[id])
    ensures ListedFrom(SortedChecks(UpsertAll(indexed, calls)), incoming, calls)
  {
    var byId := UpsertAll(indexed, calls);
    var list := SortedChecks(byId);
    UpsertAllKeys(indexed, calls);
    UpsertAllKeepsIds(indexed, calls);
    SortedChecksOrdered(byId);
    TableListedControls(incoming, indexed, calls);
    TableListedOthers(incoming, indexed, calls);
    ListedRecords(list, byId, incoming, calls);
  }

  /**
   * What `build_assessment` promises of the assessment it returns, besides
   * the check list: `checks` holds that list and has every incoming id and
   * the fourteen control ids, `metadata` has its timestamp, and every other
   * member is unchanged.
   */
  ghost predicate Assessed(assessment: Json, signals: Signals, probes: Probes, w: Wording, generatedAt: string, out: Json) {
    assessment.JObj? && out.JObj? && Observe(signals).Ok?
    && Get(out.fields, "checks") == Some(JArr(OutputChecks(out)))
    && ListedFrom(OutputChecks(out), IncomingChecks(assessment), Rules(Observe(signals).value, probes, w))
    && ListIds(OutputChecks(out)) == IdsOf(IncomingChecks(assessment)) + CheckIds
    && Get(assessment.fields, "metadata").Some? && Get(out.fields, "metadata").Some?
    && Stamped(Get(assessment.fields, "metadata").value, Get(out.fields, "metadata").value, generatedAt)
    && forall key :: key != "checks" && key != "metadata" ==> Get(out.fields, key) == Get(assessment.fields, key)
  }

  /** The last two assignments of `build_assessment`, on a list that `ListedFrom` describes. */
  lemma Assembled(assessment: Json, signals: Signals, probes: Probes, w: Wording, generatedAt: string,
                  list: seq<Json>, meta: seq<(string, Json)>, out: Json)
    requires assessment.JObj? && Observe(signals).Ok?
    requires ListedFrom(list, IncomingChecks(assessment), Rules(Observe(signals).value, probes, w))
    requires Get(Put(assessment.fields, "checks", JArr(list)), "metadata") == Some(JObj(meta))
    requires out == JObj(Put(Put(assessment.fields, "checks", JArr(list)), "metadata",
                             JObj(Put(meta, "generated_at_utc", JStr(generatedAt)))))
    ensures Assessed(assessment, signals, probes, w, generatedAt, out)
  {
    var fields := Put(assessment.fields, "checks", JArr(list));
    PutGet(fields, "metadata", JObj(Put(meta, "generated_at_utc", JStr(generatedAt))), "checks");
    PutGet(assessment.fields, "checks", JArr(list), "checks");
    assert OutputChecks(out) == list;
    PutGet(assessment.fields, "checks", JArr(list), "metadata");
    PutGet(fields, "metadata", JObj(Put(meta, "generated_at_utc", JStr(generatedAt))), "metadata");
    forall key | key != "generated_at_utc"
      ensures Get(Put(meta, "generated_at_utc", JStr(generatedAt)), key) == Get(meta, key)
    {
      PutGet(meta, "generated_at_utc", JStr(generatedAt), key);
    }
    PutGet(meta, "generated_at_utc", JStr(generatedAt), "generated_at_utc");
    forall key | key != "checks" && key != "metadata"
      ensures Get(out.fields, key) == Get(assessment.fields, key)
    {
      PutGet(fields, "metadata", JObj(Put(meta, "generated_at_utc", JStr(generatedAt))), key);
      PutGet(assessment.fields, "checks", JArr(list), key);
    }
    RulesIds(Observe(signals).value, probes, w);
  }

  /**
   * `build_assessment(assessment, signals)` with the machine probes and the
   * wording as parameters and `utc_now()` as `generatedAt`: the fault it
   * raises, or the updated assessment.
   */
  method BuildAssessment(assessment: Json, signals: Signals, probes: Probes, w: Wording, generatedAt: string)
    returns (r: Result<Json, Fault>)
    ensures r.Err? <==> FaultOf(assessment, signals).Some?
    ensures r.Err? ==> FaultOf(assessment, signals) == Some(r.error)
    ensures r.Ok? ==> Assessed(assessment, signals, probes, w, generatedAt, r.value)
  {
    if !assessment.JObj? {
      return Err(AssessmentNotObject);
    }
    var checks := Iterate(GetOr(assessment.fields, "checks", JArr([])));
    if checks.None? {
      return Err(ChecksNotIterable);
    }
    var indexed := IndexChecks(checks.value);
    if indexed.Err? {
      return Err(indexed.error);
    }
    var observed := Observe(signals);
    if observed.Err? {
      return Err(observed.error);
    }
    var table := new CheckTable(indexed.value);
    ApplyRules(table, observed.value, probes, w);
    var list := SortedChecks(table.byId);
    TableListed(checks.value, indexed.value, Rules(observed.value, probes, w));
    var fields := Put(assessment.fields, "checks", JArr(list));
    match Get(fields, "metadata") {
      case Some(JObj(meta)) =>
        var out := JObj(Put(fields, "metadata", JObj(Put(meta, "generated_at_utc", JStr(generatedAt)))));
        PutGet(assessment.fields, "checks", JArr(list), "metadata");
        Assembled(assessment, signals, probes, w, generatedAt, list, meta, out);
        return Ok(out);
      case _ =>
        PutGet(assessment.fields, "checks", JArr(list), "metadata");
        return Err(MetadataNotObject);
    }
  }

  /** A status in a listed check list is the one the last call for that id wrote. */
  lemma StatusOfControl(list: seq<Json>, incoming: seq<Json>, calls: Calls, id: string, f: CheckFields)
    requires ListedFrom(list, incoming, calls)
    requires FieldsFor(calls, id) == Some(f)
    ensures forall s :: StatusIs(list, id, s) <==> s == f.status
  {
    FieldsForFinds(calls, id);
    assert id in ListIds(list);
    var i :| 0 <= i < |list| && IdText(list[i]) == id;
    assert StatusIs(list, id, f.status);
  }

  /** How `Observe` derives each observation the status lemmas use from the signals. */
  lemma ObservedFrom(signals: Signals)
    requires Observe(signals).Ok?
    ensures Findings(signals.portReport).Ok?
    ensures GatewayLoopbackConfigured(signals.configJson, signals.configText).Some?
    ensures var obs := Observe(signals).value;
            && obs.unapproved == CountType(Findings(signals.portReport).value, "unapproved-port")
            && obs.versionText == Strip(signals.versionText)
            && obs.loopback == GatewayLoopbackConfigured(signals.configJson, signals.configText).value
            && obs.writableIssue == Contains(Lower(signals.doctorText), "not writable")
  {
  }

  /** `elevation_timeout_30m` is always compliant. */
  lemma ElevationTimeoutStatus(assessment: Json, signals: Signals, probes: Probes, w: Wording, generatedAt: string, out: Json)
    requires Assessed(assessment, signals, probes, w, generatedAt, out)
    ensures forall s :: StatusIs(OutputChecks(out), "elevation_timeout_30m", s) <==> s == Compliant
  {
    var obs := Observe(signals).value;
    ElevationTimeoutRule(obs, probes, w);
    StatusOfControl(OutputChecks(out), IncomingChecks(assessment), Rules(obs, probes, w), "elevation_timeout_30m",
                    ElevationTimeoutCheck(w));
  }

  /** `open_ports_approved` is compliant when no finding is an unapproved port, and a violation otherwise. */
  lemma OpenPortsStatus(assessment: Json, signals: Signals, probes: Probes, w: Wording, generatedAt: string, out: Json)
    requires Assessed(assessment, signals, probes, w, generatedAt, out)
    ensures Findings(signals.portReport).Ok?
    ensures var findings := Findings(signals.portReport).value;
            var clean := forall i :: 0 <= i < |findings| ==> !HasType(findings[i], "unapproved-port");
            forall s :: StatusIs(OutputChecks(out), "open_ports_approved", s) <==> s == (if clean then Compliant else Violation)
  {
    var obs := Observe(signals).value;
    ObservedFrom(signals);
    OpenPortsRule(obs, probes, w);
    StatusOfControl(OutputChecks(out), IncomingChecks(assessment), Rules(obs, probes, w), "open_ports_approved",
                    OpenPortsCheck(w, obs.listening, obs.unapproved));
  }

  /** `alternate_privilege_paths_restricted` is compliant when no su/doas is present or the hook is installed. */
  lemma AlternatePathsStatus(assessment: Json, signals: Signals, probes: Probes, w: Wording, generatedAt: string, out: Json)
    requires Assessed(assessment, signals, probes, w, generatedAt, out)
    ensures forall s :: StatusIs(OutputChecks(out), "alternate_privilege_paths_restricted", s)
              <==> s == (if !probes.altPrivilegeTools || probes.hookInstalled then Compliant else Partial)
  {
    var obs := Observe(signals).value;
    AlternatePathsRule(obs, probes, w);
    StatusOfControl(OutputChecks(out), IncomingChecks(assessment), Rules(obs, probes, w), "alternate_privilege_paths_restricted",
                    AlternatePathsCheck(w, probes.altPrivilegeTools, probes.hookInstalled));
  }

  /** `update_hygiene` is partial when the stripped version text is not empty, and a violation otherwise. */
  lemma UpdateHygieneStatus(assessment: Json, signals: Signals, probes: Probes, w: Wording, generatedAt: string, out: Json)
    requires Assessed(assessment, signals, probes, w, generatedAt, out)
    ensures forall s :: StatusIs(OutputChecks(out), "update_hygiene", s)
              <==> s == (if Strip(signals.versionText) != "" then Partial else Violation)
  {
    var obs := Observe(signals).value;
    ObservedFrom(signals);
    UpdateHygieneRule(obs, probes, w);
    StatusOfControl(OutputChecks(out), IncomingChecks(assessment), Rules(obs, probes, w), "update_hygiene",
                    UpdateHygieneCheck(w, obs.versionText));
  }

  /**
   * `least_privilege_enforced` is compliant when the gateway is on loopback
   * and the lower-cased doctor output lacks "not writable", and partial
   * otherwise; it is never a violation.
   */
  lemma LeastPrivilegeStatus(assessment: Json, signals: Signals, probes: Probes, w: Wording, generatedAt: string, out: Json)
    requires Assessed(assessment, signals, probes, w, generatedAt, out)
    ensures GatewayLoopbackConfigured(signals.configJson, signals.configText).Some?
    ensures var loopback := GatewayLoopbackConfigured(signals.configJson, signals.configText).value;
            var writable := Contains(Lower(signals.doctorText), "not writable");
            forall s :: StatusIs(OutputChecks(out), "least_privilege_enforced", s)
              <==> s == (if loopback && !writable then Compliant else Partial)
    ensures !StatusIs(OutputChecks(out), "least_privilege_enforced", Violation)
  {
    var obs := Observe(signals).value;
    ObservedFrom(signals);
    LeastPrivilegeRule(obs, probes, w);
    StatusOfControl(OutputChecks(out), IncomingChecks(assessment), Rules(obs, probes, w), "least_privilege_enforced",
                    LeastPrivilegeCheck(w, obs.loopback, obs.writableIssue));
  }
}
