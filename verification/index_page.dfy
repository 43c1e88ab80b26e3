/**
 The server list of the landing page: creating a server (with its delayed
 promotion to online), deleting servers, and the status badge text.

 The page's state is a value of `Page`; every handler becomes a transition
 function. The 3-second timer scheduled by a create is not a clock: the page
 remembers the id it was scheduled for in `pending`, and the timer firing is the
 explicit event `PromotionDue(id)`, which may arrive at any later point,
 interleaved with any other event, including a delete of that server.
 */
module IndexPage {
  import opened Wrappers
  import opened Text
  import opened Lifecycle

  /** One row of the server list. */
  datatype Server = Server(
    id: string,
    name: string,
    version: string,
    status: Status,
    players: nat,
    maxPlayers: nat,
    plan: string)

  /** The plan every created server gets. */
  const FreePlan: string := "Бесплатный"
  const DefaultMaxPlayers: nat := 20
  /** The versions the version selector offers; the first is preselected. */
  const Versions: seq<string> := ["1.20.4", "1.20.1", "1.19.4", "1.18.2", "1.16.5"]

  /**
   The page state: the server list, the two form fields, and the ids whose
   promotion timers have been scheduled and have not fired yet (a multiset,
   because two creates in the same millisecond schedule two timers for one id).
   */
  datatype Page = Page(
    servers: seq<Server>,
    serverName: string,
    selectedVersion: string,
    pending: multiset<string>)

  const InitialPage: Page := Page(
    [Server("1", "Мой сервер выживания", "1.20.4", Online, 3, 20, FreePlan)],
    "", Versions[0], multiset{})

  /** The id a create at time `now` (milliseconds) gets: `Date.now().toString()`. */
  function IdAt(now: nat): (id: string)
    ensures IsDigits(id) && DigitsValue(id) == now
  {
    NatToStringRoundTrip(now);
    NatToString(now)
  }

  /** The creation button: rejected (nothing changes, the typed name stays) when
      the name is blank; otherwise one `starting` record is appended, the name
      field is cleared and a promotion timer for the new id is scheduled. */
  function CreateServer(p: Page, now: nat): (q: Page)
    ensures IsBlank(p.serverName) ==> q == p
    ensures !IsBlank(p.serverName) ==>
      && |q.servers| == |p.servers| + 1
      && q.servers[..|p.servers|] == p.servers
      && var s := q.servers[|p.servers|];
      && s.id == IdAt(now)
      && s.name == p.serverName
      && s.version == p.selectedVersion
      && s.status == Starting
      && s.players == 0
      && s.maxPlayers == DefaultMaxPlayers
      && s.plan == FreePlan
      && q.serverName == []
      && q.selectedVersion == p.selectedVersion
      && q.pending == p.pending + multiset{s.id}
  {
    if IsBlank(p.serverName) then p
    else
      var s := Server(IdAt(now), p.serverName, p.selectedVersion, Starting, 0,
                      DefaultMaxPlayers, FreePlan);
      Page(p.servers + [s], "", p.selectedVersion, p.pending + multiset{s.id})
  }

  /** Number of records carrying `id`. */
  function CountId(servers: seq<Server>, id: string): nat {
    if servers == [] then 0
    else CountId(servers[..|servers| - 1], id)
         + (if servers[|servers| - 1].id == id then 1 else 0)
  }

  /** The callback of the promotion timer: every record with `id` becomes
      `online`; nothing else about any record changes. */
  function PromoteOnline(servers: seq<Server>, id: string): (r: seq<Server>)
    ensures |r| == |servers|
    ensures forall i :: 0 <= i < |r| ==>
      && r[i].status == (if servers[i].id == id then Online else servers[i].status)
      && r[i].id == servers[i].id && r[i].name == servers[i].name
      && r[i].version == servers[i].version && r[i].players == servers[i].players
      && r[i].maxPlayers == servers[i].maxPlayers && r[i].plan == servers[i].plan
  {
    if servers == [] then []
    else
      var s := servers[0];
      [if s.id == id then s.(status := Online) else s] + PromoteOnline(servers[1..], id)
  }

  /** The delete button of a row: the list without any record carrying `id`. */
  function DeleteServer(servers: seq<Server>, id: string): (r: seq<Server>)
    ensures forall i :: 0 <= i < |r| ==> r[i].id != id
    ensures |r| == |servers| - CountId(servers, id)
  {
    if servers == [] then []
    else
      var last := servers[|servers| - 1];
      DeleteServer(servers[..|servers| - 1], id) + (if last.id == id then [] else [last])
  }

  /** A record survives a delete exactly when it was listed and carries
      another id. */
  lemma {:induction false} DeleteServerMembership(servers: seq<Server>, id: string, s: Server)
    ensures s in DeleteServer(servers, id) <==> s in servers && s.id != id
  {
    if servers != [] {
      var init, last := servers[..|servers| - 1], servers[|servers| - 1];
      DeleteServerMembership(init, id, s);
      assert servers == init + [last];
    }
  }

  /** Delete keeps the survivors in their original order: it acts record by
      record, so it distributes over concatenation. */
  lemma {:induction false} DeleteServerDistributes(a: seq<Server>, b: seq<Server>, id: string)
    ensures DeleteServer(a + b, id) == DeleteServer(a, id) + DeleteServer(b, id)
    decreases |b|
  {
    if b == [] {
      assert a + b == a;
    } else {
      var b', last := b[..|b| - 1], b[|b| - 1];
      var tail := if last.id == id then [] else [last];
      assert (a + b)[..|a + b| - 1] == a + b';
      assert (a + b)[|a + b| - 1] == last;
      assert DeleteServer(a + b, id) == DeleteServer(a + b', id) + tail;
      assert DeleteServer(b, id) == DeleteServer(b', id) + tail;
      DeleteServerDistributes(a, b', id);
    }
  }

  /** Deleting an id that no record carries leaves the list unchanged, and a
      delete that changes nothing means the id was absent. */
  lemma {:induction false} DeleteServerUnchangedIffAbsent(servers: seq<Server>, id: string)
    ensures DeleteServer(servers, id) == servers <==> CountId(servers, id) == 0
  {
    if CountId(servers, id) == 0 {
      DeleteAbsentIsIdentity(servers, id);
    } else {
      assert |DeleteServer(servers, id)| < |servers|;
    }
  }

  lemma {:induction false} DeleteAbsentIsIdentity(servers: seq<Server>, id: string)
    requires CountId(servers, id) == 0
    ensures DeleteServer(servers, id) == servers
  {
    if servers != [] {
      DeleteAbsentIsIdentity(servers[..|servers| - 1], id);
      assert servers[..|servers| - 1] + [servers[|servers| - 1]] == servers;
    }
  }

  /** A record carries `id` exactly when `CountId` sees it. */
  lemma {:induction false} CountIdZeroIffAbsent(servers: seq<Server>, id: string)
    ensures CountId(servers, id) == 0 <==> forall i :: 0 <= i < |servers| ==> servers[i].id != id
  {
    if servers != [] {
      var init := servers[..|servers| - 1];
      CountIdZeroIffAbsent(init, id);
      assert forall i :: 0 <= i < |init| ==> init[i] == servers[i];
    }
  }

  /** A promotion timer that fires after its server was deleted (or for an id
      no record carries) leaves the list unchanged. */
  lemma PromoteAbsentIsIdentity(servers: seq<Server>, id: string)
    requires forall i :: 0 <= i < |servers| ==> servers[i].id != id
    ensures PromoteOnline(servers, id) == servers
  {
  }

  /** Firing a promotion twice is the same as firing it once. */
  lemma PromoteIdempotent(servers: seq<Server>, id: string)
    ensures PromoteOnline(PromoteOnline(servers, id), id) == PromoteOnline(servers, id)
  {
  }

  /** A delete and a promotion timer commute, whatever their ids: the outcome
      does not depend on whether the timer fires before or after the delete. */
  lemma {:induction false} PromoteDeleteCommute(servers: seq<Server>, promoted: string, deleted: string)
    ensures PromoteOnline(DeleteServer(servers, deleted), promoted)
         == DeleteServer(PromoteOnline(servers, promoted), deleted)
  {
    if servers != [] {
      var init, last := servers[..|servers| - 1], servers[|servers| - 1];
      var tail := if last.id == deleted then [] else [last];
      assert init + [last] == servers;
      // left-hand side: delete first
      PromoteAppend(DeleteServer(init, deleted), tail, promoted);
      // right-hand side: promote first
      PromoteAppend(init, [last], promoted);
      var promotedInit := PromoteOnline(init, promoted);
      var promotedLast := PromoteOnline([last], promoted);
      assert |promotedLast| == 1;
      var pl := promotedLast[0];
      assert pl.id == last.id;
      var ps := promotedInit + [pl];
      assert ps[..|ps| - 1] == promotedInit;
      assert DeleteServer(ps, deleted)
          == DeleteServer(promotedInit, deleted) + (if pl.id == deleted then [] else [pl]);
      PromoteDeleteCommute(init, promoted, deleted);
      assert PromoteOnline(tail, promoted) == (if last.id == deleted then [] else [pl]);
    }
  }

  lemma PromoteAppend(a: seq<Server>, b: seq<Server>, id: string)
    ensures PromoteOnline(a + b, id) == PromoteOnline(a, id) + PromoteOnline(b, id)
  {
  }

  /** Deleting a server makes its pending promotion irrelevant. */
  lemma PromoteAfterDeleteIsNoOp(servers: seq<Server>, id: string)
    ensures PromoteOnline(DeleteServer(servers, id), id) == DeleteServer(servers, id)
  {
    PromoteAbsentIsIdentity(DeleteServer(servers, id), id);
  }

  /** Deleting the id of a fresh create restores the list as it was before. */
  lemma DeleteUndoesCreate(p: Page, now: nat)
    requires CountId(p.servers, IdAt(now)) == 0
    ensures DeleteServer(CreateServer(p, now).servers, IdAt(now)) == p.servers
  {
    var q := CreateServer(p, now);
    DeleteAbsentIsIdentity(p.servers, IdAt(now));
    if !IsBlank(p.serverName) {
      var s := q.servers[|p.servers|];
      assert q.servers == p.servers + [s];
      DeleteServerDistributes(p.servers, [s], IdAt(now));
      assert DeleteServer([s], IdAt(now)) == [];
    }
  }

  /** Creates at two different milliseconds produce different ids, and creates
      in the same millisecond produce the same id. */
  lemma IdsDistinctIffTimesDistinct(t1: nat, t2: nat)
    ensures IdAt(t1) == IdAt(t2) <==> t1 == t2
  {
    NatToStringInjective(t1, t2);
  }

  /** Two creates in the same millisecond append two records with one id, and
      a single delete of that id removes both. */
  lemma SameMillisecondCreatesShareOneDelete(p: Page, now: nat, secondName: string)
    requires !IsBlank(p.serverName) && !IsBlank(secondName)
    ensures var q := CreateServer(CreateServer(p, now).(serverName := secondName), now);
            && |q.servers| == |p.servers| + 2
            && q.servers[|p.servers|].id == q.servers[|p.servers| + 1].id
            && DeleteServer(q.servers, IdAt(now)) == DeleteServer(p.servers, IdAt(now))
  {
  }

  /** The badge text of a status (`getStatusText`); each text names exactly
      one status. */
  function StatusText(s: Status): (text: string)
    ensures text == "Работает" <==> s == Online
    ensures text == "Остановлен" <==> s == Offline
    ensures text == "Запускается" <==> s == Starting
  {
    match s
    case Online => "Работает"
    case Offline => "Остановлен"
    case Starting => "Запускается"
  }

  /** The landing page's badges are distinct, so a badge names its status. */
  lemma StatusTextRoundTrip(s: Status)
    ensures StatusOfLabel(StatusText, StatusText(s)) == Some(s)
  {
    LabelRoundTrip(StatusText, s);
  }

  /** The events of the page: typing a name, picking a version, clicking
      create, clicking a delete button, and a promotion timer firing. */
  datatype Event =
    | EditName(text: string)
    | SelectVersion(version: string)
    | Create(now: nat)
    | Delete(id: string)
    | PromotionDue(id: string)

  /** Which events can happen: the selector only offers the listed versions,
      and only a scheduled timer can fire. */
  predicate Enabled(p: Page, e: Event) {
    match e
    case SelectVersion(v) => v in Versions
    case PromotionDue(id) => id in p.pending
    case _ => true
  }

  /** The page's reaction to one event. Only a create adds a record, only a
      create or a firing timer changes the pending timers, and the selected
      version stays one the selector offers. */
  function Step(p: Page, e: Event): (q: Page)
    requires Enabled(p, e)
    ensures |q.servers| <= |p.servers| + (if e.Create? then 1 else 0)
    ensures e.Create? || e.PromotionDue? || q.pending == p.pending
    ensures p.selectedVersion in Versions ==> q.selectedVersion in Versions
  {
    match e
    case EditName(text) => p.(serverName := text)
    case SelectVersion(v) => p.(selectedVersion := v)
    case Create(now) => CreateServer(p, now)
    case Delete(id) => p.(servers := DeleteServer(p.servers, id))
    case PromotionDue(id) =>
      p.(servers := PromoteOnline(p.servers, id), pending := p.pending - multiset{id})
  }

  /**
   What holds of every page the events can reach: the selected version and
   every record's version are offered versions; no record is `offline` (this
   page has no stop button); and every `starting` record still has a
   promotion timer pending for its id.
   */
  ghost predicate Inv(p: Page) {
    && p.selectedVersion in Versions
    && (forall i :: 0 <= i < |p.servers| ==>
          && p.servers[i].version in Versions
          && p.servers[i].status != Offline
          && (p.servers[i].status == Starting ==> p.servers[i].id in p.pending))
  }

  lemma InitialPageInv()
    ensures Inv(InitialPage)
  {
  }

  lemma StepPreservesInv(p: Page, e: Event)
    requires Inv(p) && Enabled(p, e)
    ensures Inv(Step(p, e))
  {
    var q := Step(p, e);
    match e
    case Delete(id) =>
      forall i | 0 <= i < |q.servers|
        ensures q.servers[i] in p.servers
      {
        DeleteServerMembership(p.servers, id, q.servers[i]);
      }
    case _ =>
  }

  /** Once every scheduled timer has fired, every server is online. */
  lemma QuiescentPageIsOnline(p: Page)
    requires Inv(p) && p.pending == multiset{}
    ensures forall i :: 0 <= i < |p.servers| ==> p.servers[i].status == Online
  {
  }
}
