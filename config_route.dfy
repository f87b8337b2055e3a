/** `/api/config` (app/app/api/config/route.js): the extension and the admin
    read an org's configuration; the admin alone writes it, field by field. */
module ConfigRoute {
  import opened Wrappers
  import opened Text
  import opened Db
  import opened Auth

  /** The configuration as the route returns it. */
  datatype AiTools = AiTools(chatgpt: bool, claude: bool, gemini: bool, other: bool)
  datatype RuleActions = RuleActions(email: string, phone: string, iban: string)
  datatype ConfigView = ConfigView(orgId: string, userId: string, aiTools: AiTools,
                                   rules: RuleActions, approvedAiUrl: Option<string>)

  /** `Boolean(n)` for an integer column. */
  function Flag(n: int): bool { n != 0 }

  /** The response built from a stored row. */
  function View(row: ConfigRow, orgId: string, userId: string): (v: ConfigView)
    ensures v.rules == RuleActions(row.actionEmail, row.actionPhone, row.actionIban)
    ensures v.orgId == orgId && v.userId == userId
    ensures v.aiTools.chatgpt <==> row.aiChatgpt != 0
    ensures v.aiTools.claude <==> row.aiClaude != 0
    ensures v.aiTools.gemini <==> row.aiGemini != 0
    ensures v.aiTools.other <==> row.aiOther != 0
    ensures v.approvedAiUrl == row.approvedAiUrl
  {
    ConfigView(orgId, userId, AiTools(Flag(row.aiChatgpt), Flag(row.aiClaude), Flag(row.aiGemini), Flag(row.aiOther)),
               RuleActions(row.actionEmail, row.actionPhone, row.actionIban), row.approvedAiUrl)
  }

  const ConfigNotFound: ApiError := ApiError("INTERNAL_ERROR", "Config not found")

  /** The reply for an org once a gate has admitted the caller: 500 "Config
      not found" exactly when the org has no configuration row, otherwise 200
      with the view of the org's row for that caller. */
  function ViewFor(configs: seq<ConfigRow>, orgId: string, userId: string): (reply: Reply<ConfigView>)
    ensures reply.status == 200 || reply.status == 500
    ensures reply == Reply(500, Failure(ConfigNotFound)) <==>
              forall j :: 0 <= j < |configs| ==> configs[j].orgId != orgId
    ensures reply.status == 200 ==>
              exists j :: 0 <= j < |configs| && configs[j].orgId == orgId
                          && reply.body == Success(View(configs[j], orgId, userId))
  {
    match FindConfig(configs, orgId)
    case None => Reply(500, Failure(ConfigNotFound))
    case Some(i) => Reply(200, Success(View(configs[i], orgId, userId)))
  }

  /** `GET`: a request carrying a bearer header is answered by the admin
      gate alone; any other request goes through the install-code gate,
      which may record the user. */
  function GetConfig(t: Tables, authHeader: Option<string>, verify: string -> Option<Claims>,
                     installCode: Option<string>, userHash: Option<string>,
                     anonId: string, newUserId: string, now: string): (Tables, Reply<ConfigView>)
  {
    if ExtractBearerToken(authHeader).Some? then
      match RequireAdmin(authHeader, verify)
      case Failure(r) => (t, Refused(r))
      case Success(claims) => (t, ViewFor(t.configs, claims.orgId, claims.userId))
    else
      var (next, gate) := InstallCodeGate(t, installCode, userHash, anonId, newUserId, now);
      match gate
      case Failure(r) => (next, Refused(r))
      case Success((org, user)) => (next, ViewFor(next.configs, org.id, user.id))
  }

  /** A bearer header routes to the admin path only: the install code is not
      looked at and nothing is written; the answer is the admin gate's
      refusal or the admin's org configuration. Without one, the install-code
      gate decides: a refused code gets the gate's 401 and writes nothing; an
      admitted one gets the configuration of the org whose install code it
      is, for the user the gate found or created, and only the users table
      may change. */
  lemma GetConfigRouting(t: Tables, authHeader: Option<string>, verify: string -> Option<Claims>,
                         installCode: Option<string>, userHash: Option<string>,
                         anonId: string, newUserId: string, now: string)
    ensures var (next, reply) := GetConfig(t, authHeader, verify, installCode, userHash, anonId, newUserId, now);
            var admin := RequireAdmin(authHeader, verify);
            var (gated, gate) := InstallCodeGate(t, installCode, userHash, anonId, newUserId, now);
            && (ExtractBearerToken(authHeader).Some? ==>
                  && next == t
                  && (admin.Failure? ==> reply == Refused(admin.error) && reply.status in {401, 403})
                  && (admin.Success? ==> reply == ViewFor(t.configs, admin.value.orgId, admin.value.userId)))
            && (ExtractBearerToken(authHeader).None? ==>
                  && next == gated
                  && (gate.Failure? ==> next == t && reply == Refused(gate.error) && reply.status == 401)
                  && (gate.Success? ==>
                        && reply == ViewFor(t.configs, gate.value.0.id, gate.value.1.id)
                        && gate.value.0 in t.orgs && gate.value.0.installCode == installCode.value
                        && gate.value.1.orgId == gate.value.0.id))
            && next.configs == t.configs && next.orgs == t.orgs && next.events == t.events
  {
    if ExtractBearerToken(authHeader).Some? {
      RequireAdminOrder(authHeader, verify);
    } else {
      InstallCodeGateOutcome(t, installCode, userHash, anonId, newUserId, now);
    }
  }

  // ---------------------------------------------------------------------------
  // POST
  // ---------------------------------------------------------------------------

  /** The `aiTools` object of the body: each flag `None` when undefined, or
      whether the given value is truthy. */
  datatype AiToolsPatch = AiToolsPatch(chatgpt: Option<bool>, claude: Option<bool>, gemini: Option<bool>, other: Option<bool>)

  /** The `rules` object of the body: each action `None` when falsy. A
      truthy value that is not a string is represented by a string other
      than WARN and BLOCK: the route refuses both with the same 400. */
  datatype RulesPatch = RulesPatch(email: Option<string>, phone: Option<string>, iban: Option<string>)

  /** `approvedAiUrl`: undefined, or a defined value (`None` when falsy). */
  datatype UrlPatch = UrlUndefined | UrlGiven(url: Option<string>)

  /** The body of `POST`; `aiTools` and `rules` are `None` when falsy. */
  datatype ConfigPatch = ConfigPatch(aiTools: Option<AiToolsPatch>, rules: Option<RulesPatch>, approvedAiUrl: UrlPatch)

  /** The rule validation: the first truthy action that is neither WARN nor
      BLOCK, in the order EMAIL, PHONE, IBAN, gives its error. */
  function ValidateRules(rules: Option<RulesPatch>): Option<ApiError> {
    if rules.None? then None
    else if Truthy(rules.value.email) && !IsAction(rules.value.email.value) then
      Some(ApiError("INVALID_REQUEST", "EMAIL action must be WARN or BLOCK"))
    else if Truthy(rules.value.phone) && !IsAction(rules.value.phone.value) then
      Some(ApiError("INVALID_REQUEST", "PHONE action must be WARN or BLOCK"))
    else if Truthy(rules.value.iban) && !IsAction(rules.value.iban.value) then
      Some(ApiError("INVALID_REQUEST", "IBAN action must be WARN or BLOCK"))
    else None
  }

  /** One `column = ?` of the `UPDATE`. */
  datatype Assignment =
    | SetChatgpt(n: int) | SetClaude(n: int) | SetGemini(n: int) | SetOther(n: int)
    | SetEmail(a: string) | SetPhone(a: string) | SetIban(a: string)
    | SetApprovedUrl(url: Option<string>) | SetUpdatedAt(now: string)

  function Assign(row: ConfigRow, a: Assignment): ConfigRow {
    match a
    case SetChatgpt(n) => row.(aiChatgpt := n)
    case SetClaude(n) => row.(aiClaude := n)
    case SetGemini(n) => row.(aiGemini := n)
    case SetOther(n) => row.(aiOther := n)
    case SetEmail(x) => row.(actionEmail := x)
    case SetPhone(x) => row.(actionPhone := x)
    case SetIban(x) => row.(actionIban := x)
    case SetApprovedUrl(u) => row.(approvedAiUrl := u)
    case SetUpdatedAt(now) => row.(updatedAt := now)
  }

  /** The `UPDATE ... SET` of a list of assignments. */
  function AssignAll(row: ConfigRow, updates: seq<Assignment>): ConfigRow
    decreases |updates|
  {
    if updates == [] then row else AssignAll(Assign(row, updates[0]), updates[1..])
  }

  function Bit(b: bool): int { if b then 1 else 0 }

  /** The stored value of `approvedAiUrl || null`. */
  function StoredUrl(url: Option<string>): Option<string> {
    if Truthy(url) then url else None
  }

  /** The flag assignments `POST` builds for `aiTools`. */
  function ToolUpdates(tools: Option<AiToolsPatch>): seq<Assignment> {
    if tools.None? then []
    else
      var t := tools.value;
      (if t.chatgpt.Some? then [SetChatgpt(Bit(t.chatgpt.value))] else [])
      + (if t.claude.Some? then [SetClaude(Bit(t.claude.value))] else [])
      + (if t.gemini.Some? then [SetGemini(Bit(t.gemini.value))] else [])
      + (if t.other.Some? then [SetOther(Bit(t.other.value))] else [])
  }

  /** The action assignments `POST` builds for `rules`. */
  function RuleUpdates(rules: Option<RulesPatch>): seq<Assignment> {
    if rules.None? then []
    else
      var r := rules.value;
      (if Truthy(r.email) then [SetEmail(r.email.value)] else [])
      + (if Truthy(r.phone) then [SetPhone(r.phone.value)] else [])
      + (if Truthy(r.iban) then [SetIban(r.iban.value)] else [])
  }

  /** Every assignment the body asks for, in the order `POST` pushes them. */
  function Updates(p: ConfigPatch): seq<Assignment> {
    ToolUpdates(p.aiTools) + RuleUpdates(p.rules)
    + (if p.approvedAiUrl.UrlGiven? then [SetApprovedUrl(StoredUrl(p.approvedAiUrl.url))] else [])
  }

  /** The body names at least one field to write. */
  predicate AnyField(p: ConfigPatch) {
    || (p.aiTools.Some? && (p.aiTools.value.chatgpt.Some? || p.aiTools.value.claude.Some?
                            || p.aiTools.value.gemini.Some? || p.aiTools.value.other.Some?))
    || (p.rules.Some? && (Truthy(p.rules.value.email) || Truthy(p.rules.value.phone) || Truthy(p.rules.value.iban)))
    || p.approvedAiUrl.UrlGiven?
  }

  /** The `UPDATE` runs exactly when the body names a field. */
  lemma UpdatesNonEmpty(p: ConfigPatch)
    ensures Updates(p) != [] <==> AnyField(p)
  {
  }

  /** The row after the update: unchanged when the body asks for nothing,
      otherwise every assignment and the `updated_at` stamp. */
  function Patched(row: ConfigRow, p: ConfigPatch, now: string): ConfigRow {
    var u := Updates(p);
    if u == [] then row else AssignAll(row, u + [SetUpdatedAt(now)])
  }

  /** `POST`'s effect on the `org_config` table once the caller is admitted
      and the rules are valid: a missing row is first created with the
      column defaults, then patched. */
  function PatchConfigs(configs: seq<ConfigRow>, orgId: string, p: ConfigPatch, newId: string, now: string): seq<ConfigRow> {
    match FindConfig(configs, orgId)
    case Some(i) => configs[i := Patched(configs[i], p, now)]
    case None => configs + [Patched(DefaultConfig(newId, orgId, now), p, now)]
  }

  /** What `POST` answers on success. */
  datatype Saved = Saved(updatedAt: string)

  /** `POST`: the tables and the reply. `now` is the database's
      `datetime('now')`; `replyTime` is the route's own ISO timestamp, a
      separate clock read. */
  function PostConfig(t: Tables, authHeader: Option<string>, verify: string -> Option<Claims>,
                      p: ConfigPatch, newId: string, now: string, replyTime: string): (Tables, Reply<Saved>)
  {
    match RequireAdmin(authHeader, verify)
    case Failure(r) => (t, Refused(r))
    case Success(claims) =>
      match ValidateRules(p.rules)
      case Some(e) => (t, Reply(400, Failure(e)))
      case None => (t.(configs := PatchConfigs(t.configs, claims.orgId, p, newId, now)), Reply(200, Success(Saved(replyTime))))
  }

  // ---------------------------------------------------------------------------
  // What POST guarantees
  // ---------------------------------------------------------------------------

  lemma {:induction false} AssignAllAppend(row: ConfigRow, a: seq<Assignment>, b: seq<Assignment>)
    ensures AssignAll(row, a + b) == AssignAll(AssignAll(row, a), b)
    decreases |a|
  {
    if a == [] {
      assert a + b == b;
    } else {
      assert (a + b)[0] == a[0];
      assert (a + b)[1..] == a[1..] + b;
      AssignAllAppend(Assign(row, a[0]), a[1..], b);
    }
  }

  /** Only the supplied fields change: each flag becomes 1 or 0 exactly when
      given, each action becomes the given one exactly when truthy, the URL
      changes exactly when defined (a falsy one to null), and `updated_at`
      is stamped exactly when something changed. The row's id and org never
      change. */
  lemma PatchedFields(row: ConfigRow, p: ConfigPatch, now: string)
    ensures var r := Patched(row, p, now);
            var tools := p.aiTools;
            var rules := p.rules;
            && r.id == row.id && r.orgId == row.orgId
            && r.aiChatgpt == (if tools.Some? && tools.value.chatgpt.Some? then Bit(tools.value.chatgpt.value) else row.aiChatgpt)
            && r.aiClaude == (if tools.Some? && tools.value.claude.Some? then Bit(tools.value.claude.value) else row.aiClaude)
            && r.aiGemini == (if tools.Some? && tools.value.gemini.Some? then Bit(tools.value.gemini.value) else row.aiGemini)
            && r.aiOther == (if tools.Some? && tools.value.other.Some? then Bit(tools.value.other.value) else row.aiOther)
            && r.actionEmail == (if rules.Some? && Truthy(rules.value.email) then rules.value.email.value else row.actionEmail)
            && r.actionPhone == (if rules.Some? && Truthy(rules.value.phone) then rules.value.phone.value else row.actionPhone)
            && r.actionIban == (if rules.Some? && Truthy(rules.value.iban) then rules.value.iban.value else row.actionIban)
            && r.approvedAiUrl == (if p.approvedAiUrl.UrlGiven? then StoredUrl(p.approvedAiUrl.url) else row.approvedAiUrl)
            && (AnyField(p) ==> r.updatedAt == now)
            && (!AnyField(p) ==> r == row)
  {
    UpdatesNonEmpty(p);
    var u := Updates(p);
    if u != [] {
      var tu, ru := ToolUpdates(p.aiTools), RuleUpdates(p.rules);
      var uu := if p.approvedAiUrl.UrlGiven? then [SetApprovedUrl(StoredUrl(p.approvedAiUrl.url))] else [];
      assert u == tu + ru + uu;
      AssignAllAppend(row, tu + ru + uu, [SetUpdatedAt(now)]);
      AssignAllAppend(row, tu + ru, uu);
      AssignAllAppend(row, tu, ru);
      ToolUpdatesEffect(row, p.aiTools);
      RuleUpdatesEffect(AssignAll(row, tu), p.rules);
    }
  }

  lemma ToolUpdatesEffect(row: ConfigRow, tools: Option<AiToolsPatch>)
    ensures var r := AssignAll(row, ToolUpdates(tools));
            && r.(aiChatgpt := row.aiChatgpt, aiClaude := row.aiClaude, aiGemini := row.aiGemini, aiOther := row.aiOther) == row
            && r.aiChatgpt == (if tools.Some? && tools.value.chatgpt.Some? then Bit(tools.value.chatgpt.value) else row.aiChatgpt)
            && r.aiClaude == (if tools.Some? && tools.value.claude.Some? then Bit(tools.value.claude.value) else row.aiClaude)
            && r.aiGemini == (if tools.Some? && tools.value.gemini.Some? then Bit(tools.value.gemini.value) else row.aiGemini)
            && r.aiOther == (if tools.Some? && tools.value.other.Some? then Bit(tools.value.other.value) else row.aiOther)
  {
    if tools.Some? {
      var t := tools.value;
      var a := if t.chatgpt.Some? then [SetChatgpt(Bit(t.chatgpt.value))] else [];
      var b := if t.claude.Some? then [SetClaude(Bit(t.claude.value))] else [];
      var c := if t.gemini.Some? then [SetGemini(Bit(t.gemini.value))] else [];
      var d := if t.other.Some? then [SetOther(Bit(t.other.value))] else [];
      AssignAllAppend(row, a + b + c, d);
      AssignAllAppend(row, a + b, c);
      AssignAllAppend(row, a, b);
    }
  }

  lemma RuleUpdatesEffect(row: ConfigRow, rules: Option<RulesPatch>)
    ensures var r := AssignAll(row, RuleUpdates(rules));
            && r.(actionEmail := row.actionEmail, actionPhone := row.actionPhone, actionIban := row.actionIban) == row
            && r.actionEmail == (if rules.Some? && Truthy(rules.value.email) then rules.value.email.value else row.actionEmail)
            && r.actionPhone == (if rules.Some? && Truthy(rules.value.phone) then rules.value.phone.value else row.actionPhone)
            && r.actionIban == (if rules.Some? && Truthy(rules.value.iban) then rules.value.iban.value else row.actionIban)
  {
    if rules.Some? {
      var x := rules.value;
      var a := if Truthy(x.email) then [SetEmail(x.email.value)] else [];
      var b := if Truthy(x.phone) then [SetPhone(x.phone.value)] else [];
      var c := if Truthy(x.iban) then [SetIban(x.iban.value)] else [];
      AssignAllAppend(row, a + b, c);
      AssignAllAppend(row, a, b);
    }
  }

  /** Valid rules keep the CHECK constraints of `org_config`: a patched row
      still holds only WARN and BLOCK. */
  lemma PatchedKeepsChecks(row: ConfigRow, p: ConfigPatch, now: string)
    requires ConfigChecks(row)
    requires ValidateRules(p.rules).None?
    ensures ConfigChecks(Patched(row, p, now))
  {
    PatchedFields(row, p, now);
  }

  predicate AllChecked(configs: seq<ConfigRow>) {
    forall j :: 0 <= j < |configs| ==> ConfigChecks(configs[j])
  }

  /** `POST` answers the admin gate's refusal first, then 400 for invalid
      rules, writing nothing in either case. Otherwise it answers 200 and
      rewrites exactly the admin's org row (creating it with the column
      defaults first when missing), every stored row still meeting the
      CHECK constraints. */
  lemma PostConfigOutcome(t: Tables, authHeader: Option<string>, verify: string -> Option<Claims>,
                          p: ConfigPatch, newId: string, now: string, replyTime: string)
    requires AllChecked(t.configs)
    ensures var (next, reply) := PostConfig(t, authHeader, verify, p, newId, now, replyTime);
            var gate := RequireAdmin(authHeader, verify);
            && (gate.Failure? ==> next == t && reply.status == gate.error.status)
            && (gate.Success? && ValidateRules(p.rules).Some? ==> next == t && reply.status == 400)
            && (gate.Success? && ValidateRules(p.rules).None? ==>
                  && reply == Reply(200, Success(Saved(replyTime)))
                  && next.orgs == t.orgs && next.users == t.users && next.events == t.events
                  && AllChecked(next.configs)
                  && (FindConfig(t.configs, gate.value.orgId).None? ==>
                        next.configs == t.configs + [Patched(DefaultConfig(newId, gate.value.orgId, now), p, now)])
                  && (FindConfig(t.configs, gate.value.orgId).Some? ==>
                        |next.configs| == |t.configs|
                        && next.configs[FindConfig(t.configs, gate.value.orgId).value]
                           == Patched(t.configs[FindConfig(t.configs, gate.value.orgId).value], p, now)
                        && forall j :: 0 <= j < |t.configs| && j != FindConfig(t.configs, gate.value.orgId).value ==>
                             next.configs[j] == t.configs[j]))
  {
    var gate := RequireAdmin(authHeader, verify);
    if gate.Success? && ValidateRules(p.rules).None? {
      var orgId := gate.value.orgId;
      match FindConfig(t.configs, orgId)
      case Some(i) =>
        PatchedKeepsChecks(t.configs[i], p, now);
      case None =>
        DefaultConfigChecks(newId, orgId, now);
        PatchedKeepsChecks(DefaultConfig(newId, orgId, now), p, now);
    }
  }

  // ---------------------------------------------------------------------------
  // The handlers
  // ---------------------------------------------------------------------------

  lemma ToolUpdatesOf(t: AiToolsPatch)
    ensures ToolUpdates(Some(t))
            == (if t.chatgpt.Some? then [SetChatgpt(Bit(t.chatgpt.value))] else [])
               + (if t.claude.Some? then [SetClaude(Bit(t.claude.value))] else [])
               + (if t.gemini.Some? then [SetGemini(Bit(t.gemini.value))] else [])
               + (if t.other.Some? then [SetOther(Bit(t.other.value))] else [])
  {
  }

  /** The pushes for `aiTools`. */
  method PushToolUpdates(updates: seq<Assignment>, tools: AiToolsPatch) returns (r: seq<Assignment>)
    ensures r == updates + ToolUpdates(Some(tools))
  {
    ghost var a := if tools.chatgpt.Some? then [SetChatgpt(Bit(tools.chatgpt.value))] else [];
    ghost var b := if tools.claude.Some? then [SetClaude(Bit(tools.claude.value))] else [];
    ghost var c := if tools.gemini.Some? then [SetGemini(Bit(tools.gemini.value))] else [];
    ghost var d := if tools.other.Some? then [SetOther(Bit(tools.other.value))] else [];
    r := updates;
    if tools.chatgpt.Some? {
      r := r + [SetChatgpt(if tools.chatgpt.value then 1 else 0)];
    }
    assert r == updates + a;
    if tools.claude.Some? {
      r := r + [SetClaude(if tools.claude.value then 1 else 0)];
    }
    assert r == updates + a + b;
    if tools.gemini.Some? {
      r := r + [SetGemini(if tools.gemini.value then 1 else 0)];
    }
    assert r == updates + a + b + c;
    if tools.other.Some? {
      r := r + [SetOther(if tools.other.value then 1 else 0)];
    }
    assert r == updates + a + b + c + d;
    ToolUpdatesOf(tools);
    assert updates + a + b + c + d == updates + (a + b + c + d);
  }

  /** The pushes for `rules`. */
  method PushRuleUpdates(updates: seq<Assignment>, rules: RulesPatch) returns (r: seq<Assignment>)
    ensures r == updates + RuleUpdates(Some(rules))
  {
    ghost var a := if Truthy(rules.email) then [SetEmail(rules.email.value)] else [];
    ghost var b := if Truthy(rules.phone) then [SetPhone(rules.phone.value)] else [];
    ghost var c := if Truthy(rules.iban) then [SetIban(rules.iban.value)] else [];
    r := updates;
    if Truthy(rules.email) {
      r := r + [SetEmail(rules.email.value)];
    }
    assert r == updates + a;
    if Truthy(rules.phone) {
      r := r + [SetPhone(rules.phone.value)];
    }
    assert r == updates + a + b;
    if Truthy(rules.iban) {
      r := r + [SetIban(rules.iban.value)];
    }
    assert r == updates + a + b + c;
    assert RuleUpdates(Some(rules)) == a + b + c;
    assert updates + a + b + c == updates + (a + b + c);
  }

  /** The `updates` list of `POST`, pushed field by field. */
  method BuildUpdates(p: ConfigPatch) returns (updates: seq<Assignment>)
    ensures updates == Updates(p)
  {
    ghost var tools, rules := ToolUpdates(p.aiTools), RuleUpdates(p.rules);
    updates := [];
    if p.aiTools.Some? {
      updates := PushToolUpdates(updates, p.aiTools.value);
      assert [] + tools == tools;
    }
    assert updates == tools;
    if p.rules.Some? {
      updates := PushRuleUpdates(updates, p.rules.value);
    }
    assert updates == tools + rules;
    if p.approvedAiUrl.UrlGiven? {
      updates := updates + [SetApprovedUrl(if Truthy(p.approvedAiUrl.url) then p.approvedAiUrl.url else None)];
    }
  }

  /** `POST /api/config`. */
  method HandlePost(db: Database, authHeader: Option<string>, verify: string -> Option<Claims>,
                    p: ConfigPatch, newId: string, now: string, replyTime: string) returns (reply: Reply<Saved>)
    modifies db
    ensures (db.Contents(), reply) == PostConfig(old(db.Contents()), authHeader, verify, p, newId, now, replyTime)
  {
    var auth := RequireAdmin(authHeader, verify);
    if auth.Failure? {
      return Refused(auth.error);
    }
    var invalid := ValidateRules(p.rules);
    if invalid.Some? {
      return Reply(400, Failure(invalid.value));
    }
    var orgId := auth.value.orgId;
    ghost var before := db.configs;
    var found := FindConfig(db.configs, orgId);
    var index: nat;
    if found.None? {
      db.configs := db.configs + [DefaultConfig(newId, orgId, now)];
      index := |db.configs| - 1;
    } else {
      index := found.value;
    }
    var updates := BuildUpdates(p);
    if |updates| > 0 {
      updates := updates + [SetUpdatedAt(now)];
      db.configs := db.configs[index := AssignAll(db.configs[index], updates)];
    }
    if found.None? {
      assert db.configs == before + [Patched(DefaultConfig(newId, orgId, now), p, now)];
    } else {
      assert db.configs == before[index := Patched(before[index], p, now)];
    }
    return Reply(200, Success(Saved(replyTime)));
  }
}
