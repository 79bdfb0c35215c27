/** Clients, virtual machines and the revert queue. In the source the setters of a client
    and of its machine call each other; what each call amounts to is stated here without
    recursion, and class CaptureServer proves its recursive setters against it. */
module Lifecycle {
  import opened Prelude
  import opened UrlGroups

  type ClientId = nat
  type VmId = nat

  datatype ClientState = Connecting | Connected | Waiting | AwaitingVisiting | Visiting | Disconnected
  datatype VmState = Reverting | WaitingRevert | Running | Stopped | VmError

  /** `open` says that the socket is open: the server receives messages of this client. */
  datatype Client = Client(state: ClientState, held: Option<GroupId>, algorithm: Algorithm, vm: VmId, open: bool)
  datatype Vm = Vm(state: VmState, client: Option<ClientId>)

  /** `work` is the queue of revert items. */
  datatype Fleet = Fleet(clients: map<ClientId, Client>, vms: map<VmId, Vm>, work: seq<VmId>)

  /** References resolve, and a machine's client runs on that machine. */
  predicate Wired(f: Fleet) {
    && (forall c {:trigger f.clients[c]} :: c in f.clients ==> f.clients[c].vm in f.vms)
    && (forall v {:trigger f.vms[v]} :: v in f.vms && f.vms[v].client.Some? ==>
          f.vms[v].client.value in f.clients && f.clients[f.vms[v].client.value].vm == v)
  }

  function WithClient(f: Fleet, c: ClientId, client: Client): Fleet {
    f.(clients := f.clients[c := client])
  }

  function WithVm(f: Fleet, v: VmId, vm: Vm): Fleet {
    f.(vms := f.vms[v := vm])
  }

  function Queued(work: seq<VmId>, v: VmId): seq<VmId> {
    if v in work then work else work + [v]
  }

  /** Client c is disconnected: detached from its machine, socket closed. A machine that is
      not waiting yet starts to wait and gets its revert item. */
  function ClientDown(f: Fleet, c: ClientId): Fleet
    requires Wired(f) && c in f.clients
  {
    var v := f.clients[c].vm;
    Fleet(f.clients[c := f.clients[c].(state := Disconnected, open := false)],
          f.vms[v := Vm(WaitingRevert, None)],
          if f.vms[v].state == WaitingRevert then f.work else Queued(f.work, v))
  }

  /** The client a machine takes down when it starts to wait for its revert. */
  function Victim(f: Fleet, v: VmId): Option<ClientId>
    requires Wired(f) && v in f.vms
  {
    if f.vms[v].state != WaitingRevert && f.vms[v].client.Some? && f.clients[f.vms[v].client.value].state != Disconnected
    then f.vms[v].client else None
  }

  /** Machine v is told to wait for its revert. */
  function VmWaits(f: Fleet, v: VmId): Fleet
    requires Wired(f) && v in f.vms
  {
    if f.vms[v].state == WaitingRevert then f
    else if Victim(f, v).Some? then ClientDown(f, Victim(f, v).value)
    else Fleet(f.clients, f.vms[v := f.vms[v].(state := WaitingRevert)], Queued(f.work, v))
  }

  /** A machine that waits to be reverted has a work item, and no machine has two. */
  predicate RevertQueued(f: Fleet) {
    && NoDup(f.work)
    && (forall v :: v in f.work ==> v in f.vms)
    && (forall v :: v in f.vms && f.vms[v].state == WaitingRevert ==> v in f.work)
  }

  /** A machine's client is live, and a waiting machine has none. */
  predicate Attached(f: Fleet) {
    forall v {:trigger f.vms[v]} :: v in f.vms && f.vms[v].client.Some? ==>
      && f.vms[v].client.value in f.clients && f.clients[f.vms[v].client.value].state != Disconnected
      && f.vms[v].state != WaitingRevert
  }

  /** A client's state tells whether it holds a group and whether it can still speak. */
  predicate Orderly(f: Fleet) {
    forall c {:trigger f.clients[c]} :: c in f.clients ==>
      match f.clients[c].state
      case Waiting => f.clients[c].held.None?
      case AwaitingVisiting => f.clients[c].held.Some?
      case Visiting => f.clients[c].held.Some?
      case Disconnected => !f.clients[c].open
      case _ => false
  }

  predicate Sound(f: Fleet) {
    Wired(f) && RevertQueued(f) && Attached(f) && Orderly(f)
  }

  lemma QueuedKeeps(work: seq<VmId>, v: VmId)
    requires NoDup(work)
    ensures NoDup(Queued(work, v)) && v in Queued(work, v)
    ensures forall w :: w in Queued(work, v) <==> w in work || w == v
  {
  }

  lemma ClientDownSound(f: Fleet, c: ClientId)
    requires Sound(f) && c in f.clients
    ensures Sound(ClientDown(f, c))
  {
    QueuedKeeps(f.work, f.clients[c].vm);
  }

  lemma DownQueued(f: Fleet, c: ClientId)
    requires Wired(f) && c in f.clients
    ensures RevertQueued(f) ==> f.clients[c].vm in ClientDown(f, c).work && NoDup(ClientDown(f, c).work)
  {
    if RevertQueued(f) {
      QueuedKeeps(f.work, f.clients[c].vm);
    }
  }

  lemma VmWaitsSound(f: Fleet, v: VmId)
    requires Sound(f) && v in f.vms
    ensures Sound(VmWaits(f, v))
  {
    if Victim(f, v).Some? {
      ClientDownSound(f, Victim(f, v).value);
    } else if f.vms[v].state != WaitingRevert {
      QueuedKeeps(f.work, v);
    }
  }

  /** The first revert item is done: its machine ended in the given state. */
  function Reverted(f: Fleet, outcome: VmState): Fleet
    requires f.work != [] && f.work[0] in f.vms
  {
    Fleet(f.clients, f.vms[f.work[0] := f.vms[f.work[0]].(state := outcome)], f.work[1..])
  }

  lemma RevertedSound(f: Fleet, outcome: VmState)
    requires Sound(f) && f.work != [] && outcome != WaitingRevert
    ensures Sound(Reverted(f, outcome))
  {
    assert f.work == [f.work[0]] + f.work[1..];
  }

  /** Replacing a client's record, its machine and liveness unchanged. */
  lemma ClientChangedSound(f: Fleet, c: ClientId, client: Client)
    requires Sound(f) && c in f.clients
    requires client.vm == f.clients[c].vm && client.state != Disconnected && f.clients[c].state != Disconnected
    requires Orderly(Fleet(map[c := client], map[], []))
    ensures Sound(WithClient(f, c, client))
  {
    assert map[c := client][c] == client;
  }
}
