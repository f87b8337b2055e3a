/** The server's tables (app/lib/db.js), as sequences of rows in insertion
    order, with the column defaults of `org_config` and its CHECK
    constraints. Timestamps written by `datetime('now')` are the parameter
    `now`. */
module Db {
  import opened Wrappers

  datatype Org = Org(id: string, domain: string, name: Option<string>, installCode: string)

  datatype User = User(
    id: string,
    orgId: string,
    email: Option<string>,
    hashedId: Option<string>,
    passwordHash: Option<string>,
    role: string,
    extensionInstalled: int,
    lastSeenAt: Option<string>,
    blockCount: int,
    updatedAt: string)

  datatype ConfigRow = ConfigRow(
    id: string,
    orgId: string,
    aiChatgpt: int,
    aiClaude: int,
    aiGemini: int,
    aiOther: int,
    actionEmail: string,
    actionPhone: string,
    actionIban: string,
    approvedAiUrl: Option<string>,
    updatedAt: string)

  /** An event row; `dataTypes` is the list the `data_types` column holds
      as JSON text. */
  datatype EventRow = EventRow(
    id: string,
    orgId: string,
    userId: string,
    timestamp: string,
    aiDomain: string,
    ruleId: string,
    dataTypes: seq<string>,
    action: string,
    extensionVersion: string)

  datatype Tables = Tables(orgs: seq<Org>, users: seq<User>, configs: seq<ConfigRow>, events: seq<EventRow>)

  predicate IsAction(a: string) {
    a == "WARN" || a == "BLOCK"
  }

  /** The row `INSERT INTO org_config (id, org_id)` creates: all three AI
      tools on and "other" off, EMAIL and PHONE warned, IBAN blocked, no
      approved URL. */
  function DefaultConfig(id: string, orgId: string, now: string): (c: ConfigRow)
    ensures c.id == id && c.orgId == orgId && c.approvedAiUrl.None?
  {
    ConfigRow(id, orgId, 1, 1, 1, 0, "WARN", "WARN", "BLOCK", None, now)
  }

  /** The CHECK constraints of `org_config`. */
  predicate ConfigChecks(c: ConfigRow) {
    IsAction(c.actionEmail) && IsAction(c.actionPhone) && IsAction(c.actionIban)
  }

  /** The column defaults satisfy the CHECK constraints. */
  lemma DefaultConfigChecks(id: string, orgId: string, now: string)
    ensures ConfigChecks(DefaultConfig(id, orgId, now))
    ensures var c := DefaultConfig(id, orgId, now);
            c.actionEmail == "WARN" && c.actionPhone == "WARN" && c.actionIban == "BLOCK"
            && c.aiChatgpt == 1 && c.aiClaude == 1 && c.aiGemini == 1 && c.aiOther == 0
  {
  }

  /** The first row with `org_id = orgId AND hashed_id = hash`. */
  function FindUserByHash(users: seq<User>, orgId: string, hash: string): (i: Option<nat>)
    ensures i.Some? ==> i.value < |users| && users[i.value].orgId == orgId && users[i.value].hashedId == Some(hash)
    ensures i.Some? ==> forall j :: 0 <= j < i.value ==> !(users[j].orgId == orgId && users[j].hashedId == Some(hash))
    ensures i.None? ==> forall j :: 0 <= j < |users| ==> !(users[j].orgId == orgId && users[j].hashedId == Some(hash))
  {
    if users == [] then None
    else if users[0].orgId == orgId && users[0].hashedId == Some(hash) then Some(0)
    else match FindUserByHash(users[1..], orgId, hash)
         case None => None
         case Some(k) => Some(k + 1)
  }

  /** The first org with `install_code = code`. */
  function FindOrgByInstallCode(orgs: seq<Org>, code: string): (i: Option<nat>)
    ensures i.Some? ==> i.value < |orgs| && orgs[i.value].installCode == code
    ensures i.None? ==> forall j :: 0 <= j < |orgs| ==> orgs[j].installCode != code
  {
    if orgs == [] then None
    else if orgs[0].installCode == code then Some(0)
    else match FindOrgByInstallCode(orgs[1..], code)
         case None => None
         case Some(k) => Some(k + 1)
  }

  /** The first config row with `org_id = orgId`. */
  function FindConfig(configs: seq<ConfigRow>, orgId: string): (i: Option<nat>)
    ensures i.Some? ==> i.value < |configs| && configs[i.value].orgId == orgId
    ensures i.None? ==> forall j :: 0 <= j < |configs| ==> configs[j].orgId != orgId
  {
    if configs == [] then None
    else if configs[0].orgId == orgId then Some(0)
    else match FindConfig(configs[1..], orgId)
         case None => None
         case Some(k) => Some(k + 1)
  }

  predicate EmailUsed(users: seq<User>, email: string) {
    exists j :: 0 <= j < |users| && users[j].email == Some(email)
  }

  predicate DomainUsed(orgs: seq<Org>, domain: string) {
    exists j :: 0 <= j < |orgs| && orgs[j].domain == domain
  }

  /** The rows of `users` whose id is `id`, changed by `f`; every other row
      is kept: an `UPDATE users ... WHERE id = ?`. */
  function UpdateUsersWhere(users: seq<User>, id: string, f: User -> User): (r: seq<User>)
    ensures |r| == |users|
    ensures forall j :: 0 <= j < |users| ==> r[j] == (if users[j].id == id then f(users[j]) else users[j])
  {
    seq(|users|, j requires 0 <= j < |users| => if users[j].id == id then f(users[j]) else users[j])
  }

  /** The database connection: the four tables the modelled routes use. */
  class Database {
    var orgs: seq<Org>
    var users: seq<User>
    var configs: seq<ConfigRow>
    var events: seq<EventRow>

    function Contents(): Tables
      reads this
    {
      Tables(orgs, users, configs, events)
    }

    constructor ()
      ensures Contents() == Tables([], [], [], [])
    {
      orgs := [];
      users := [];
      configs := [];
      events := [];
    }
  }
}
