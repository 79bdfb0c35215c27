/** URLs, URL groups and the group controller: group state changes, verdicts,
    the divide-and-conquer split and the single retry. Object identity is
    modelled by table keys, so that a group can be referred to from the deque
    and from a client at the same time. */
module UrlGroups {
  import opened Prelude

  type UrlId = nat
  type GroupId = nat

  datatype UrlState = UrlFresh | UrlVisiting | UrlVisited | UrlError
  datatype GroupState = GroupFresh | GroupVisiting | GroupVisited | GroupError
  datatype Algorithm = NoAlgorithm | Dac | Bulk | Sequential

  const OK := 0x00000000
  const NETWORK_ERROR := 0x10000110
  const PROCESS_ERROR := 0x10000111
  const CLIENT_INACTIVITY := 0x10004000
  const VM_STALLED := 0x10004100
  const CONNECTION_RESET := 0x10004200
  const SOCKET_ERROR := 0x10004300
  const INVALID_CODE := 0x10006000

  /** The codes the server knows; every other code is replaced by INVALID_CODE. */
  predicate KnownCode(code: int) {
    || code == OK || 0x10000101 <= code <= 0x10000104 || 0x10000110 <= code <= 0x10000114
    || code == 0x10000200 || code == 0x10000300 || code == CLIENT_INACTIVITY || code == VM_STALLED
    || code == CONNECTION_RESET || code == SOCKET_ERROR || code == 0x10007000
    || 0x10005000 <= code <= 0x10005003 || code == INVALID_CODE
  }

  function Known(code: int): int {
    if KnownCode(code) then code else INVALID_CODE
  }

  datatype Url = Url(malicious: Option<bool>, state: UrlState, major: int)

  /** `origin` is the initial group a group was split from; the source has no such field. */
  datatype Group = Group(urls: seq<UrlId>, state: GroupState, errorCount: nat, retryCount: nat,
                         malicious: bool, algorithm: Algorithm, major: int, origin: GroupId)

  /** All URLs and groups ever created, and the controller's deque with its head first. */
  datatype Pool = Pool(urls: map<UrlId, Url>, groups: map<GroupId, Group>, deque: seq<GroupId>, next: GroupId)

  const EMPTY_POOL := Pool(map[], map[], [], 0)

  function FreshGroup(urls: seq<UrlId>, origin: GroupId): Group {
    Group(urls, GroupFresh, 0, 0, false, NoAlgorithm, OK, origin)
  }

  /** The controller splits a group that is notified in this condition. */
  predicate Armed(g: Group) {
    g.algorithm == Dac && g.malicious && |g.urls| > 1
  }

  /** Every URL of us gets the verdict "malicious" exactly if it is in flagged. */
  function Mark(urls: map<UrlId, Url>, us: seq<UrlId>, flagged: set<UrlId>): map<UrlId, Url> {
    map u | u in urls :: if u in us then urls[u].(malicious := Some(u in flagged)) else urls[u]
  }

  function SetMalicious(p: Pool, g: GroupId, algorithm: Algorithm, malicious: bool, changed: Option<set<UrlId>>): Pool
    requires g in p.groups
  {
    var us := p.groups[g].urls;
    var p1 := p.(groups := p.groups[g := p.groups[g].(malicious := malicious)]);
    if algorithm != Bulk then
      if !malicious then p1.(urls := Mark(p.urls, us, {}))
      else if |us| == 1 then p1.(urls := Mark(p.urls, us, {us[0]}))
      else p1
    else if changed.None? then p1.(urls := Mark(p.urls, us, if malicious then set u | u in us else {}))
    else p1.(urls := Mark(p.urls, us, changed.value))
  }

  /** Writing a URL's state changes to its log marks it malicious. */
  function FlushChanges(p: Pool, g: GroupId, changed: set<UrlId>): Pool
    requires g in p.groups
  {
    p.(urls := map u | u in p.urls ::
         if u in p.groups[g].urls && u in changed then p.urls[u].(malicious := Some(true)) else p.urls[u])
  }

  /** Error codes the client reports for single URLs of the visited group. */
  function ReportCodes(p: Pool, g: GroupId, codes: map<UrlId, int>): Pool
    requires g in p.groups
  {
    p.(urls := map u | u in p.urls ::
         if u in p.groups[g].urls && u in codes then p.urls[u].(major := Known(codes[u])) else p.urls[u])
  }

  function SetMajor(p: Pool, g: GroupId, code: int): Pool
    requires g in p.groups
  {
    p.(groups := p.groups[g := p.groups[g].(major := Known(code))])
  }

  function SetAlgorithm(p: Pool, g: GroupId, algorithm: Algorithm): Pool
    requires g in p.groups
  {
    p.(groups := p.groups[g := p.groups[g].(algorithm := algorithm)])
  }

  function UrlEntering(url: Url, state: GroupState, major: int): Url {
    match state
    case GroupFresh => url
    case GroupVisiting => url.(state := UrlVisiting)
    case GroupVisited => url.(state := if url.major == OK then UrlVisited else UrlError)
    case GroupError => url.(state := UrlError, major := if url.major == OK then Known(major) else url.major)
  }

  /** The group's and its URLs' fields after setUrlGroupState, before the controller is notified. */
  function Enter(p: Pool, g: GroupId, state: GroupState): Pool
    requires g in p.groups
  {
    var grp := p.groups[g];
    p.(groups := p.groups[g := grp.(state := state,
                                    errorCount := if state == GroupError then grp.errorCount + 1 else grp.errorCount)],
       urls := map u | u in p.urls :: if u in grp.urls then UrlEntering(p.urls[u], state, grp.major) else p.urls[u])
  }

  function Split(p: Pool, g: GroupId): Pool
    requires g in p.groups
  {
    var us := p.groups[g].urls;
    var b := |us| / 2;
    Pool(p.urls,
         p.groups[p.next := FreshGroup(us[..b], p.groups[g].origin)]
                 [p.next + 1 := FreshGroup(us[b..], p.groups[g].origin)],
         [p.next + 1, p.next] + p.deque,
         p.next + 2)
  }

  /** The codes the controller copies to the URLs of a failed group. */
  function FailUrls(p: Pool, g: GroupId): Pool
    requires g in p.groups
  {
    p.(urls := map u | u in p.urls ::
         if u in p.groups[g].urls then p.urls[u].(major := Known(p.groups[g].major), state := UrlError) else p.urls[u])
  }

  function Requeue(p: Pool, g: GroupId): Pool
    requires g in p.groups
  {
    p.(groups := p.groups[g := p.groups[g].(retryCount := p.groups[g].retryCount + 1)], deque := [g] + p.deque)
  }

  /** The controller's reaction to a group's new state. Every unsplit first error is retried. */
  function Update(p: Pool, g: GroupId): (q: Pool)
    requires g in p.groups && (forall h :: h in p.groups ==> h < p.next)
    ensures p.groups.Keys <= q.groups.Keys && (forall h :: h in q.groups ==> h < q.next)
  {
    match p.groups[g].state
    case GroupFresh => p
    case GroupVisiting => p
    case GroupVisited => if Armed(p.groups[g]) then Split(p, g) else p
    case GroupError =>
      if Armed(p.groups[g]) then FailUrls(Split(p, g), g)
      else if p.groups[g].errorCount <= 1 then Requeue(FailUrls(p, g), g)
      else FailUrls(p, g)
  }

  function Notify(p: Pool, g: GroupId, state: GroupState): (q: Pool)
    requires g in p.groups && (forall h :: h in p.groups ==> h < p.next)
    ensures p.groups.Keys <= q.groups.Keys && (forall h :: h in q.groups ==> h < q.next)
  {
    Update(Enter(p, g, state), g)
  }

  /** What disconnecting does to the group the client still holds: two ERROR notifications. */
  function FailHeld(p: Pool, g: GroupId): (q: Pool)
    requires g in p.groups && (forall h :: h in p.groups ==> h < p.next)
    ensures p.groups.Keys <= q.groups.Keys && (forall h :: h in q.groups ==> h < q.next)
  {
    var p1 := Notify(p, g, GroupError);
    var p2 := if p1.groups[g].malicious then p1 else SetMalicious(p1, g, Dac, false, None);
    Notify(SetMajor(p2, g, CONNECTION_RESET), g, GroupError)
  }
}
