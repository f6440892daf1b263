/**
 * The realtime hub: named rooms whose members get each other's messages and
 * the presence list. Every critical section is one step; what a goroutine is
 * still to do between two of them is an outstanding task.
 */
module RealtimeHub {
  import opened Common

  /** The capacity of a client's send channel. */
  const SEND_BUFFER_SIZE := 64

  datatype User = User(id: string, name: string)

  /** A message as put on channels; a relayed one names the client it came from. */
  datatype Message = Presence(users: seq<User>) | Relayed(author: nat, text: string)

  /**
   * A connection with its send channel: what was ever put on it, how much of
   * that the write pump took, and how often it was closed. `joined` is the
   * length of the room's log when the client entered the room's set.
   */
  datatype Client = Client(user: User, roomName: string, room: nat, joined: Option<nat>,
                           put: seq<Message>, taken: nat, closes: nat)

  /** A room object with its set of clients and every message ever broadcast in it. */
  datatype Room = Room(name: string, members: set<nat>, log: seq<Message>)

  /** What a goroutine does after the critical section it has left. */
  datatype Task =
    | Join(client: nat)
    | ReadRoster(room: nat)
    | SendRoster(room: nat, users: seq<User>)
    | Drop(name: string)

  /** `panicked`: a closed channel was sent to or closed again. */
  datatype State = State(rooms: seq<Room>, index: map<string, nat>, clients: seq<Client>, todo: seq<Task>,
                         panicked: bool)

  const NEW_HUB := State([], map[], [], [], false)

  // ----- The critical sections -----

  predicate HasSpace(k: Client) {
    |k.put| - k.taken < SEND_BUFFER_SIZE
  }

  /** A non-blocking send; a full channel is closed instead. */
  function Offered(k: Client, m: Message): Client {
    if HasSpace(k) then k.(put := k.put + [m]) else k.(closes := k.closes + 1)
  }

  function Offers(clients: seq<Client>, targets: set<nat>, m: Message): seq<Client> {
    seq(|clients|, c requires 0 <= c < |clients| => if c in targets then Offered(clients[c], m) else clients[c])
  }

  /** Which of `members` are left after the message was offered to `targets`. */
  function Left(members: set<nat>, clients: seq<Client>, targets: set<nat>): set<nat> {
    set c | c in members && (c in targets && c < |clients| ==> HasSpace(clients[c]))
  }

  predicate AnyClosed(clients: seq<Client>, targets: set<nat>) {
    exists c | c in targets && c < |clients| :: clients[c].closes > 0
  }

  predicate Own(m: Message, c: nat) {
    m.Relayed? && m.author == c
  }

  function Targets(r: Room, m: Message): set<nat> {
    set c | c in r.members && !Own(m, c)
  }

  /** The message is offered to every member but its author; who has no space for it is dropped. */
  function Broadcast(h: State, r: nat, m: Message): State
    requires r < |h.rooms|
  {
    var room := h.rooms[r];
    var targets := Targets(room, m);
    h.(clients := Offers(h.clients, targets, m),
       rooms := h.rooms[r := Room(room.name, Left(room.members, h.clients, targets), room.log + [m])],
       panicked := h.panicked || AnyClosed(h.clients, targets))
  }

  /** Finds the room, or creates it, for a client that is yet to join. */
  function Connected(h: State, name: string, user: User): State {
    var created := name !in h.index;
    var r := if created then |h.rooms| else h.index[name];
    h.(rooms := if created then h.rooms + [Room(name, {}, [])] else h.rooms,
       index := h.index[name := r],
       clients := h.clients + [Client(user, name, r, None, [], 0, 0)],
       todo := h.todo + [Join(|h.clients|)])
  }

  /** A client joins once: joining is set down when it connects, and only then. */
  function Joined(h: State, c: nat): State
    requires c < |h.clients|
  {
    var k := h.clients[c];
    if k.room >= |h.rooms| || k.joined.Some? then h
    else
      var r := h.rooms[k.room];
      h.(rooms := h.rooms[k.room := r.(members := r.members + {c})],
         clients := h.clients[c := k.(joined := Some(|r.log|))],
         todo := h.todo + [ReadRoster(k.room)])
  }

  ghost predicate HasClient(clients: seq<Client>, members: set<nat>, user: User) {
    exists c | c in members && c < |clients| :: clients[c].user == user
  }

  predicate Lists(users: seq<User>, id: string) {
    exists i | 0 <= i < |users| :: users[i].id == id
  }

  /** `users` lists each user who has a client among `members` once, with the name one of the clients gives. */
  ghost predicate Roster(clients: seq<Client>, members: set<nat>, users: seq<User>) {
    && (forall i, j | 0 <= i < j < |users| :: users[i].id != users[j].id)
    && (forall i | 0 <= i < |users| :: HasClient(clients, members, users[i]))
    && (forall c | c in members && c < |clients| :: Lists(users, clients[c].user.id))
  }

  /** What removing a client does under the lock of its room. */
  function Removing(h: State, c: nat): State
    requires c < |h.clients| && h.clients[c].room < |h.rooms|
  {
    var k := h.clients[c];
    var r := h.rooms[k.room];
    if c in r.members then
      h.(rooms := h.rooms[k.room := r.(members := r.members - {c})],
         clients := h.clients[c := k.(closes := k.closes + 1)],
         panicked := h.panicked || k.closes > 0)
    else h
  }

  /** The last one out takes the room off the index next; otherwise the rest get a new roster. */
  function Removed(h: State, c: nat): State
    requires c < |h.clients| && h.clients[c].room < |h.rooms|
  {
    var k := h.clients[c];
    var members := h.rooms[k.room].members - {c};
    Removing(h, c).(todo := h.todo + [if members == {} then Drop(k.roomName) else ReadRoster(k.room)])
  }

  /** Takes the name off the index, whatever room it leads to by now. */
  function Dropped(h: State, name: string): State {
    h.(index := h.index - {name})
  }

  function Received(h: State, c: nat): State
    requires c < |h.clients|
  {
    var k := h.clients[c];
    if k.taken < |k.put| then h.(clients := h.clients[c := k.(taken := k.taken + 1)]) else h
  }

  // ----- Runs -----

  /** `Perform` carries out an outstanding task; `users` is the roster when what is carried out reads one. */
  datatype Action =
    | Connect(name: string, user: User)
    | Perform(k: nat, users: seq<User>)
    | Relay(client: nat, text: string)
    | Remove(client: nat)
    | Receive(client: nat)

  function Without(todo: seq<Task>, k: nat): seq<Task>
    requires k < |todo|
  {
    todo[..k] + todo[k + 1..]
  }

  ghost function Performed(h: State, task: Task, users: seq<User>): State {
    match task
    case Join(c) => if c < |h.clients| then Joined(h, c) else h
    case ReadRoster(r) =>
      if r < |h.rooms| && Roster(h.clients, h.rooms[r].members, users)
      then h.(todo := h.todo + [SendRoster(r, users)]) else h
    case SendRoster(r, roster) => if r < |h.rooms| then Broadcast(h, r, Presence(roster)) else h
    case Drop(name) => Dropped(h, name)
  }

  /** A client relays and leaves from its read pump, which runs once it has joined, and is not stopped by being dropped. */
  predicate Reading(h: State, c: nat) {
    c < |h.clients| && h.clients[c].joined.Some? && h.clients[c].room < |h.rooms|
  }

  ghost function After(h: State, a: Action): State {
    match a
    case Connect(name, user) => Connected(h, name, user)
    case Perform(k, users) =>
      if k < |h.todo| then Performed(h.(todo := Without(h.todo, k)), h.todo[k], users) else h
    case Relay(c, text) => if Reading(h, c) then Broadcast(h, h.clients[c].room, Relayed(c, text)) else h
    case Remove(c) => if Reading(h, c) then Removed(h, c) else h
    case Receive(c) => if c < |h.clients| then Received(h, c) else h
  }

  ghost function Run(h: State, actions: seq<Action>): State {
    if actions == [] then h else After(Run(h, actions[..|actions| - 1]), actions[|actions| - 1])
  }

  // ----- What a client is due -----

  /** The messages of `log` that are not the client's own. */
  function Due(log: seq<Message>, c: nat): seq<Message> {
    if log == [] then []
    else
      var m := log[|log| - 1];
      Due(log[..|log| - 1], c) + if Own(m, c) then [] else [m]
  }

  lemma DueMore(log: seq<Message>, j: nat, m: Message, c: nat)
    requires j <= |log|
    ensures Due((log + [m])[j..], c) == Due(log[j..], c) + if Own(m, c) then [] else [m]
  {
    assert (log + [m])[j..] == log[j..] + [m];
    assert (log[j..] + [m])[..|log| - j] == log[j..];
  }

  /** Two clients' own messages can be left out in either order. */
  lemma {:induction false} DueCommutes(log: seq<Message>, c: nat, d: nat)
    ensures Due(Due(log, c), d) == Due(Due(log, d), c)
  {
    if log == [] {
    } else {
      var init, m := log[..|log| - 1], log[|log| - 1];
      DueCommutes(init, c, d);
      DueLast(Due(init, c), m, d);
      DueLast(Due(init, d), m, c);
    }
  }

  lemma DueLast(log: seq<Message>, m: Message, c: nat)
    ensures Due(log + [m], c) == Due(log, c) + if Own(m, c) then [] else [m]
    ensures Due(log + [], c) == Due(log, c)
  {
    assert (log + [m])[..|log|] == log;
    assert log + [] == log;
  }

  lemma {:induction false} DueConcat(a: seq<Message>, b: seq<Message>, c: nat)
    ensures Due(a + b, c) == Due(a, c) + Due(b, c)
  {
    if b == [] {
      assert a + b == a;
    } else {
      DueConcat(a, b[..|b| - 1], c);
      assert (a + b)[..|a + b| - 1] == a + b[..|b| - 1];
    }
  }

  lemma DueSplit(log: seq<Message>, i: nat, j: nat, c: nat)
    requires i <= j <= |log|
    ensures Due(log[i..], c) == Due(log[i..j], c) + Due(log[j..], c)
  {
    assert log[i..] == log[i..j] + log[j..];
    DueConcat(log[i..j], log[j..], c);
  }

  // ----- The invariant -----

  /** What client `c` of room `r` has been sent, and the state of its channel. */
  ghost predicate Served(c: nat, k: Client, r: Room) {
    match k.joined
    case None => k.put == [] && k.taken == 0 && k.closes == 0 && c !in r.members
    case Some(j) =>
      && j <= |r.log|
      && k.taken <= |k.put| <= k.taken + SEND_BUFFER_SIZE
      && if c in r.members then k.put == Due(r.log[j..], c) && k.closes == 0
         else k.put <= Due(r.log[j..], c) && k.closes == 1
  }

  ghost predicate ClientsServed(h: State) {
    forall c | 0 <= c < |h.clients| ::
      h.clients[c].room < |h.rooms| && Served(c, h.clients[c], h.rooms[h.clients[c].room])
  }

  ghost predicate LiveIn(members: set<nat>, r: nat, clients: seq<Client>) {
    forall c | c in members :: c < |clients| && clients[c].room == r
  }

  ghost predicate Housed(h: State) {
    && (forall r | 0 <= r < |h.rooms| :: LiveIn(h.rooms[r].members, r, h.clients))
    && (forall c | 0 <= c < |h.clients| ::
          h.clients[c].room < |h.rooms| && h.rooms[h.clients[c].room].name == h.clients[c].roomName)
    && (forall name | name in h.index :: h.index[name] < |h.rooms| && h.rooms[h.index[name]].name == name)
  }

  ghost predicate TaskSound(h: State, task: Task) {
    match task
    case Join(c) => c < |h.clients| && h.clients[c].joined.None?
    case ReadRoster(r) => r < |h.rooms|
    case SendRoster(r, _) => r < |h.rooms|
    case Drop(_) => true
  }

  /** Each client that is yet to join has one task to do so. */
  ghost predicate TasksSound(h: State) {
    && (forall k | 0 <= k < |h.todo| :: TaskSound(h, h.todo[k]))
    && (forall j, k | 0 <= j < k < |h.todo| && h.todo[j].Join? :: h.todo[j] != h.todo[k])
  }

  ghost predicate Inv(h: State) {
    Housed(h) && ClientsServed(h) && TasksSound(h) && !h.panicked
  }

  /** The tasks of `h` but perhaps one, and after them a new one that is sound. */
  ghost predicate TasksFrom(h: State, h': State, todo: seq<Task>) {
    || h'.todo == todo
    || (|h'.todo| == |todo| + 1 && h'.todo[..|todo|] == todo && !h'.todo[|todo|].Join? && TaskSound(h', h'.todo[|todo|]))
  }

  lemma TasksStaySound(h: State, h': State)
    requires TasksSound(h) && TasksFrom(h, h', h.todo) && |h.rooms| <= |h'.rooms| && |h.clients| <= |h'.clients|
    requires forall k | 0 <= k < |h.todo| && h.todo[k].Join? ::
               h.todo[k].client < |h'.clients| && h'.clients[h.todo[k].client].joined.None?
    ensures TasksSound(h')
  {
    forall k | 0 <= k < |h'.todo| ensures TaskSound(h', h'.todo[k]) {
      if k < |h.todo| {
        assert TaskSound(h, h.todo[k]) && h'.todo[k] == h.todo[k];
      }
    }
    forall j, k | 0 <= j < k < |h'.todo| && h'.todo[j].Join? ensures h'.todo[j] != h'.todo[k] {
      assert h'.todo[j] == h.todo[j];
      if k < |h.todo| {
        assert h'.todo[k] == h.todo[k];
      }
    }
  }

  lemma TaskRemoved(h: State, k: nat)
    requires TasksSound(h) && k < |h.todo|
    ensures TasksSound(h.(todo := Without(h.todo, k))) && TaskSound(h, h.todo[k])
    ensures h.todo[k].Join? ==> h.todo[k] !in Without(h.todo, k)
  {
    var rest := Without(h.todo, k);
    forall i | 0 <= i < |rest| ensures TaskSound(h.(todo := rest), rest[i]) && (h.todo[k].Join? ==> rest[i] != h.todo[k]) {
      var i' := if i < k then i else i + 1;
      assert TaskSound(h, h.todo[i']) && rest[i] == h.todo[i'];
    }
  }

  lemma BroadcastServes(c: nat, k: Client, room: Room, clients: seq<Client>, m: Message)
    requires c < |clients| && clients[c] == k && Served(c, k, room)
    ensures
      var targets := Targets(room, m);
      Served(c, Offers(clients, targets, m)[c], Room(room.name, Left(room.members, clients, targets), room.log + [m]))
  {
    if k.joined.Some? {
      DueMore(room.log, k.joined.value, m, c);
    }
  }

  lemma BroadcastKeepsInv(h: State, r: nat, m: Message)
    requires Inv(h) && r < |h.rooms|
    ensures Inv(Broadcast(h, r, m))
  {
    var h', room := Broadcast(h, r, m), h.rooms[r];
    forall c | 0 <= c < |h.clients|
      ensures h'.clients[c].room < |h'.rooms| && Served(c, h'.clients[c], h'.rooms[h'.clients[c].room])
    {
      assert Served(c, h.clients[c], h.rooms[h.clients[c].room]);
      if h.clients[c].room == r {
        BroadcastServes(c, h.clients[c], room, h.clients, m);
      }
    }
    forall k | 0 <= k < |h.todo| && h.todo[k].Join?
      ensures h.todo[k].client < |h'.clients| && h'.clients[h.todo[k].client].joined.None?
    {
      assert TaskSound(h, h.todo[k]);
    }
    TasksStaySound(h, h');
  }

  lemma JoinKeepsTasks(h: State, c: nat)
    requires Housed(h) && TasksSound(h) && c < |h.clients| && Join(c) !in h.todo
    ensures TasksSound(Joined(h, c))
  {
    forall k | 0 <= k < |h.todo| && h.todo[k].Join?
      ensures h.todo[k].client < |h.clients| && Joined(h, c).clients[h.todo[k].client].joined.None?
    {
      assert TaskSound(h, h.todo[k]) && h.todo[k] in h.todo;
    }
    TasksStaySound(h, Joined(h, c));
  }

  lemma JoinKeepsInv(h: State, c: nat)
    requires Inv(h) && c < |h.clients| && Join(c) !in h.todo
    ensures Inv(Joined(h, c))
  {
    var h' := Joined(h, c);
    JoinKeepsTasks(h, c);
    forall r | 0 <= r < |h'.rooms| ensures LiveIn(h'.rooms[r].members, r, h'.clients) {
      assert LiveIn(h.rooms[r].members, r, h.clients);
    }
    forall d | 0 <= d < |h'.clients|
      ensures h'.clients[d].room < |h'.rooms| && Served(d, h'.clients[d], h'.rooms[h'.clients[d].room])
    {
      assert Served(d, h.clients[d], h.rooms[h.clients[d].room]);
    }
  }

  lemma RemoveKeepsTasks(h: State, c: nat)
    requires Housed(h) && TasksSound(h) && c < |h.clients|
    ensures TasksSound(Removed(h, c))
  {
    forall k | 0 <= k < |h.todo| && h.todo[k].Join?
      ensures h.todo[k].client < |h.clients| && Removed(h, c).clients[h.todo[k].client].joined.None?
    {
      assert TaskSound(h, h.todo[k]);
    }
    TasksStaySound(h, Removed(h, c));
  }

  lemma RemoveKeepsInv(h: State, c: nat)
    requires Inv(h) && c < |h.clients|
    ensures Inv(Removed(h, c))
  {
    var h' := Removed(h, c);
    RemoveKeepsTasks(h, c);
    assert Served(c, h.clients[c], h.rooms[h.clients[c].room]);
    forall d | 0 <= d < |h'.clients|
      ensures h'.clients[d].room < |h'.rooms| && Served(d, h'.clients[d], h'.rooms[h'.clients[d].room])
    {
      assert Served(d, h.clients[d], h.rooms[h.clients[d].room]);
    }
  }

  lemma ConnectKeepsTasks(h: State, name: string, user: User)
    requires TasksSound(h)
    ensures TasksSound(Connected(h, name, user))
  {
    var h' := Connected(h, name, user);
    forall k | 0 <= k < |h'.todo| ensures TaskSound(h', h'.todo[k]) {
      if k < |h.todo| {
        assert TaskSound(h, h.todo[k]);
      }
    }
    forall j, k | 0 <= j < k < |h'.todo| && h'.todo[j].Join? ensures h'.todo[j] != h'.todo[k] {
      assert TaskSound(h, h.todo[j]);
    }
  }

  lemma ConnectKeepsInv(h: State, name: string, user: User)
    requires Inv(h)
    ensures Inv(Connected(h, name, user))
  {
    var h' := Connected(h, name, user);
    ConnectKeepsTasks(h, name, user);
    forall d | 0 <= d < |h'.clients|
      ensures h'.clients[d].room < |h'.rooms| && Served(d, h'.clients[d], h'.rooms[h'.clients[d].room])
    {
      if d < |h.clients| {
        assert Served(d, h.clients[d], h.rooms[h.clients[d].room]);
      }
    }
  }

  lemma InvKept(h: State, a: Action)
    requires Inv(h)
    ensures Inv(After(h, a))
  {
    match a
    case Connect(name, user) => ConnectKeepsInv(h, name, user);
    case Perform(k, users) =>
      if k < |h.todo| {
        TaskRemoved(h, k);
        PerformKeepsInv(h.(todo := Without(h.todo, k)), h.todo[k], users);
      }
    case Relay(c, text) => if Reading(h, c) { BroadcastKeepsInv(h, h.clients[c].room, Relayed(c, text)); }
    case Remove(c) => if Reading(h, c) { RemoveKeepsInv(h, c); }
    case Receive(c) => if c < |h.clients| { ReceiveKeepsInv(h, c); }
  }

  lemma PerformKeepsInv(h: State, task: Task, users: seq<User>)
    requires Inv(h) && TaskSound(h, task) && (task.Join? ==> task !in h.todo)
    ensures Inv(Performed(h, task, users))
  {
    match task
    case Join(c) => JoinKeepsInv(h, c);
    case ReadRoster(r) => RosterKeepsInv(h, r, users);
    case SendRoster(r, roster) => BroadcastKeepsInv(h, r, Presence(roster));
    case Drop(name) =>
  }

  lemma RosterKeepsInv(h: State, r: nat, users: seq<User>)
    requires Inv(h) && r < |h.rooms|
    ensures Inv(h.(todo := h.todo + [SendRoster(r, users)]))
  {
    forall k | 0 <= k < |h.todo| && h.todo[k].Join?
      ensures h.todo[k].client < |h.clients| && h.clients[h.todo[k].client].joined.None?
    {
      assert TaskSound(h, h.todo[k]);
    }
    TasksStaySound(h, h.(todo := h.todo + [SendRoster(r, users)]));
  }

  lemma ReceiveKeepsInv(h: State, c: nat)
    requires Inv(h) && c < |h.clients|
    ensures Inv(Received(h, c))
  {
    var h' := Received(h, c);
    forall r | 0 <= r < |h'.rooms| ensures LiveIn(h'.rooms[r].members, r, h'.clients) {
      assert LiveIn(h.rooms[r].members, r, h.clients);
    }
    assert Served(c, h.clients[c], h.rooms[h.clients[c].room]);
    forall k | 0 <= k < |h.todo| && h.todo[k].Join?
      ensures h.todo[k].client < |h.clients| && h'.clients[h.todo[k].client].joined.None?
    {
      assert TaskSound(h, h.todo[k]);
    }
    TasksStaySound(h, h');
  }

  lemma {:induction false} InvHolds(actions: seq<Action>)
    ensures Inv(Run(NEW_HUB, actions))
  {
    if actions == [] {
    } else {
      InvHolds(actions[..|actions| - 1]);
      InvKept(Run(NEW_HUB, actions[..|actions| - 1]), actions[|actions| - 1]);
    }
  }

  ghost predicate Reachable(h: State) {
    exists actions :: h == Run(NEW_HUB, actions)
  }

  lemma ReachableInv(h: State)
    requires Reachable(h)
    ensures Inv(h)
  {
    var actions :| h == Run(NEW_HUB, actions);
    InvHolds(actions);
  }

  lemma StepReachable(h: State, a: Action)
    requires Reachable(h)
    ensures Reachable(After(h, a))
  {
    var actions :| h == Run(NEW_HUB, actions);
    assert (actions + [a])[..|actions|] == actions;
    assert After(h, a) == Run(NEW_HUB, actions + [a]);
  }

  // ----- What holds in every reachable state -----

  /**
   * A client still in its room was put, in order and without gaps, exactly the
   * messages broadcast there since it joined, its own excepted; one that left
   * was put the first of them.
   */
  lemma MembersHearEverything(h: State, c: nat)
    requires Reachable(h) && c < |h.clients| && h.clients[c].joined.Some?
    ensures
      var k := h.clients[c];
      && k.room < |h.rooms|
      && var r := h.rooms[k.room];
         && k.joined.value <= |r.log|
         && (c in r.members ==> k.put == Due(r.log[k.joined.value..], c))
         && k.put <= Due(r.log[k.joined.value..], c)
  {
    ReachableInv(h);
    assert Served(c, h.clients[c], h.rooms[h.clients[c].room]);
  }

  /**
   * Two members of a room: from when the later one joined, both were put the
   * same messages in the same order once each one's own are left aside.
   */
  lemma CommonMessagesInOrder(h: State, r: nat, c: nat, d: nat)
    requires Reachable(h) && r < |h.rooms| && c in h.rooms[r].members && d in h.rooms[r].members
    ensures
      && c < |h.clients| && d < |h.clients| && h.clients[c].joined.Some? && h.clients[d].joined.Some?
      && var k, l, log := h.clients[c], h.clients[d], h.rooms[r].log;
         && l.joined.value <= |log|
         && (k.joined.value <= l.joined.value ==>
               var since := log[l.joined.value..];
               && k.put == Due(log[k.joined.value..l.joined.value], c) + Due(since, c)
               && l.put == Due(since, d)
               && Due(Due(since, c), d) == Due(Due(since, d), c))
  {
    ReachableInv(h);
    assert LiveIn(h.rooms[r].members, r, h.clients);
    var k, l, log := h.clients[c], h.clients[d], h.rooms[r].log;
    assert Served(c, k, h.rooms[r]) && Served(d, l, h.rooms[r]);
    var i, j := k.joined.value, l.joined.value;
    if i <= j {
      DueSplit(log, i, j, c);
      DueCommutes(log[j..], c, d);
    }
  }

  /** A channel is closed at most once, exactly when its client left, never sent to afterwards, and never over capacity. */
  lemma ChannelsAreSafe(h: State, c: nat)
    requires Reachable(h) && c < |h.clients|
    ensures
      var k := h.clients[c];
      && !h.panicked
      && k.taken <= |k.put| <= k.taken + SEND_BUFFER_SIZE
      && k.room < |h.rooms|
      && k.closes == if k.joined.Some? && c !in h.rooms[k.room].members then 1 else 0
  {
    ReachableInv(h);
    assert Served(c, h.clients[c], h.rooms[h.clients[c].room]);
  }

  /** The message a step broadcasts, and the room it does so in. */
  function Sends(h: State, a: Action): Option<(nat, Message)> {
    match a
    case Relay(c, text) => if Reading(h, c) then Some((h.clients[c].room, Relayed(c, text))) else None
    case Perform(k, _) =>
      if k < |h.todo| && h.todo[k].SendRoster? && h.todo[k].room < |h.rooms| then
        Some((h.todo[k].room, Presence(h.todo[k].users)))
      else None
    case _ => None
  }

  /** A client leaves its room by its own removal, or when another's message finds its queue full, and no other way. */
  lemma LeavesIff(h: State, a: Action, r: nat, c: nat)
    requires Inv(h) && r < |h.rooms| && c in h.rooms[r].members
    ensures
      && r < |After(h, a).rooms|
      && (c !in After(h, a).rooms[r].members <==>
            || a == Remove(c)
            || (Sends(h, a).Some? && Sends(h, a).value.0 == r && !Own(Sends(h, a).value.1, c)
                && c < |h.clients| && |h.clients[c].put| == h.clients[c].taken + SEND_BUFFER_SIZE))
  {
    assert LiveIn(h.rooms[r].members, r, h.clients);
    assert Served(c, h.clients[c], h.rooms[h.clients[c].room]);
  }

  // ----- What is said in a room -----

  /** The step broadcasts `m` in room `r`: a joined client of that room relays it, or its roster goes out. */
  ghost predicate Says(h: State, a: Action, r: nat, m: Message) {
    || (exists c: nat, text :: a == Relay(c, text) && c < |h.clients| && h.clients[c].joined.Some?
                               && h.clients[c].room == r && m == Relayed(c, text))
    || (a.Perform? && a.k < |h.todo| && m.Presence? && h.todo[a.k] == SendRoster(r, m.users))
  }

  lemma LogSaid(h: State, a: Action, r: nat, m: Message)
    requires r < |h.rooms| && Says(h, a, r, m)
    ensures r < |After(h, a).rooms| && After(h, a).rooms[r].log == h.rooms[r].log + [m]
  {
  }

  lemma LogSameUnlessSaid(h: State, a: Action, r: nat)
    requires r < |h.rooms|
    ensures r < |After(h, a).rooms|
    ensures After(h, a).rooms[r].log == h.rooms[r].log || exists m :: Says(h, a, r, m)
  {
    match a
    case Relay(c, text) =>
      if Reading(h, c) && h.clients[c].room == r {
        assert Says(h, a, r, Relayed(c, text));
      }
    case Perform(k, users) =>
      if k < |h.todo| && h.todo[k].SendRoster? && h.todo[k].room == r {
        assert Says(h, a, r, Presence(h.todo[k].users));
      }
    case _ =>
  }

  lemma NewLogEmpty(h: State, a: Action, r: nat)
    requires |h.rooms| <= r < |After(h, a).rooms|
    ensures After(h, a).rooms[r].log == []
  {
  }

  /** A step adds to the log of a room exactly what it says there; a new room's log is empty. */
  lemma LogGrows(h: State, a: Action, r: nat)
    requires r < |After(h, a).rooms|
    ensures |h.rooms| <= |After(h, a).rooms|
    ensures
      var now := After(h, a).rooms[r].log;
      if r >= |h.rooms| then now == []
      else
        && (forall m | Says(h, a, r, m) :: now == h.rooms[r].log + [m])
        && ((forall m :: !Says(h, a, r, m)) ==> now == h.rooms[r].log)
  {
    RoomsStay(h, a);
    if r >= |h.rooms| {
      NewLogEmpty(h, a, r);
    } else {
      forall m | Says(h, a, r, m) ensures After(h, a).rooms[r].log == h.rooms[r].log + [m] {
        LogSaid(h, a, r, m);
      }
      LogSameUnlessSaid(h, a, r);
    }
  }

  /** A roster on its way to a room was the list of its members when it was read. */
  ghost predicate RosterWas(actions: seq<Action>, r: nat, users: seq<User>) {
    exists i :: 0 <= i < |actions| && RosterAt(Run(NEW_HUB, actions[..i]), r, users)
  }

  ghost predicate RosterAt(h: State, r: nat, users: seq<User>) {
    r < |h.rooms| && Roster(h.clients, h.rooms[r].members, users)
  }

  lemma RosterWasMore(init: seq<Action>, a: Action, r: nat, users: seq<User>)
    requires RosterWas(init, r, users) || RosterAt(Run(NEW_HUB, init), r, users)
    ensures RosterWas(init + [a], r, users)
  {
    var more := init + [a];
    if RosterWas(init, r, users) {
      var i :| 0 <= i < |init| && RosterAt(Run(NEW_HUB, init[..i]), r, users);
      assert more[..i] == init[..i];
    } else {
      assert more[..|init|] == init;
    }
  }

  /** A roster to be sent was to be sent before the step, or the step has read it. */
  lemma RostersRead(h: State, a: Action, k: nat)
    requires k < |After(h, a).todo| && After(h, a).todo[k].SendRoster?
    ensures
      var task := After(h, a).todo[k];
      (exists j :: 0 <= j < |h.todo| && h.todo[j] == task) || RosterAt(h, task.room, task.users)
  {
    if a.Perform? && a.k < |h.todo| {
      var left := Without(h.todo, a.k);
      if k < |left| {
        assert left[k] == h.todo[if k < a.k then k else k + 1];
      }
    } else if k < |h.todo| {
      assert After(h, a).todo[k] == h.todo[k];
    }
  }

  lemma {:induction false} RostersTrue(actions: seq<Action>, k: nat)
    requires k < |Run(NEW_HUB, actions).todo| && Run(NEW_HUB, actions).todo[k].SendRoster?
    ensures
      var task := Run(NEW_HUB, actions).todo[k];
      RosterWas(actions, task.room, task.users)
  {
    if actions == [] {
      assert false;
    }
    var init, a := actions[..|actions| - 1], actions[|actions| - 1];
    assert init + [a] == actions;
    var h := Run(NEW_HUB, init);
    var task := After(h, a).todo[k];
    RostersRead(h, a, k);
    if j :| 0 <= j < |h.todo| && h.todo[j] == task {
      RostersTrue(init, j);
    }
    RosterWasMore(init, a, task.room, task.users);
  }

  /** `at` lists the actions of a run that say something in room `r`, and what they say is its log. */
  ghost predicate Transcript(actions: seq<Action>, r: nat, log: seq<Message>, at: seq<nat>) {
    && |at| == |log|
    && (forall j | 0 <= j < |at| :: at[j] < |actions| && SaysAt(actions, at[j], r, log[j]))
    && (forall i, j | 0 <= i < j < |at| :: at[i] < at[j])
    && (forall i, m | 0 <= i < |actions| && SaysAt(actions, i, r, m) :: i in at)
  }

  ghost predicate SaysAt(actions: seq<Action>, i: nat, r: nat, m: Message)
    requires i < |actions|
  {
    Says(Run(NEW_HUB, actions[..i]), actions[i], r, m)
  }

  lemma NothingSaidYet(h: State, a: Action, r: nat, m: Message)
    requires Inv(h) && r >= |h.rooms|
    ensures !Says(h, a, r, m)
  {
    if a.Perform? && a.k < |h.todo| {
      assert TaskSound(h, h.todo[a.k]);
    }
  }

  lemma TranscriptMore(init: seq<Action>, a: Action, r: nat, log: seq<Message>, at: seq<nat>, m: Message)
    requires Transcript(init, r, log, at) && Says(Run(NEW_HUB, init), a, r, m)
    ensures Transcript(init + [a], r, log + [m], at + [|init|])
  {
    SaysAsBefore(init, a, r);
    SaysLast(init, a, r);
    forall i, m' | 0 <= i < |init + [a]| && SaysAt(init + [a], i, r, m') ensures i in at + [|init|] {
      if i < |init| {
        assert SaysAt(init, i, r, m');
        assert i in at;
      }
    }
    forall j | 0 <= j < |at + [|init|]|
      ensures (at + [|init|])[j] < |init + [a]| && SaysAt(init + [a], (at + [|init|])[j], r, (log + [m])[j])
    {
      if j < |at| {
        assert SaysAt(init, at[j], r, log[j]);
      }
    }
  }

  lemma SaysLast(init: seq<Action>, a: Action, r: nat)
    ensures forall m :: SaysAt(init + [a], |init|, r, m) <==> Says(Run(NEW_HUB, init), a, r, m)
  {
    assert (init + [a])[..|init|] == init;
  }

  lemma TranscriptSame(init: seq<Action>, a: Action, r: nat, log: seq<Message>, at: seq<nat>)
    requires Transcript(init, r, log, at) && forall m :: !Says(Run(NEW_HUB, init), a, r, m)
    ensures Transcript(init + [a], r, log, at)
  {
    SaysAsBefore(init, a, r);
    SaysLast(init, a, r);
  }

  lemma SaysAsBefore(init: seq<Action>, a: Action, r: nat)
    ensures forall i, m | 0 <= i < |init| :: SaysAt(init + [a], i, r, m) <==> SaysAt(init, i, r, m)
  {
    forall i, m | 0 <= i < |init| ensures SaysAt(init + [a], i, r, m) <==> SaysAt(init, i, r, m) {
      assert (init + [a])[..i] == init[..i];
    }
  }

  /**
   * The log of a room, against which members are served, is in order exactly
   * what was said there: every text a joined client relayed, under its name, and
   * every presence list sent, each of which was true when it was read.
   */
  lemma {:induction false} LogIsWhatWasSaid(actions: seq<Action>, h: State, r: nat) returns (at: seq<nat>)
    requires h == Run(NEW_HUB, actions) && r < |h.rooms|
    ensures Transcript(actions, r, h.rooms[r].log, at)
    ensures forall j | 0 <= j < |at| && h.rooms[r].log[j].Presence? :: RosterWas(actions, r, h.rooms[r].log[j].users)
  {
    if actions == [] {
      assert false;
    }
    var init, a := actions[..|actions| - 1], actions[|actions| - 1];
    var before := Run(NEW_HUB, init);
    assert init + [a] == actions;
    LogGrows(before, a, r);
    if r < |before.rooms| {
      at := LogIsWhatWasSaid(init, before, r);
      at := NextSaid(init, before, a, r, at);
    } else {
      at := [];
      NoneSaid(actions, r);
    }
  }

  lemma NoneSaid(actions: seq<Action>, r: nat)
    requires actions != [] && r >= |Run(NEW_HUB, actions[..|actions| - 1]).rooms|
    ensures Transcript(actions, r, [], [])
  {
    forall i, m | 0 <= i < |actions| ensures !SaysAt(actions, i, r, m) {
      RoomsOnlyMore(actions[..|actions| - 1], i);
      assert actions[..|actions| - 1][..i] == actions[..i];
      InvHolds(actions[..i]);
      NothingSaidYet(Run(NEW_HUB, actions[..i]), actions[i], r, m);
    }
  }

  lemma {:induction false} RoomsOnlyMore(actions: seq<Action>, i: nat)
    requires i <= |actions|
    ensures |Run(NEW_HUB, actions[..i]).rooms| <= |Run(NEW_HUB, actions).rooms|
  {
    if i == |actions| {
      assert actions[..i] == actions;
    } else {
      var init := actions[..|actions| - 1];
      RoomsOnlyMore(init, i);
      RoomsStay(Run(NEW_HUB, init), actions[|actions| - 1]);
      assert init[..i] == actions[..i];
    }
  }

  lemma NextSaid(init: seq<Action>, before: State, a: Action, r: nat, at: seq<nat>) returns (more: seq<nat>)
    requires before == Run(NEW_HUB, init) && r < |before.rooms| && Transcript(init, r, before.rooms[r].log, at)
    requires forall j | 0 <= j < |at| && before.rooms[r].log[j].Presence? :: RosterWas(init, r, before.rooms[r].log[j].users)
    ensures r < |After(before, a).rooms|
    ensures
      var log := After(before, a).rooms[r].log;
      && Transcript(init + [a], r, log, more)
      && forall j | 0 <= j < |more| && log[j].Presence? :: RosterWas(init + [a], r, log[j].users)
  {
    RoomsStay(before, a);
    LogGrows(before, a, r);
    var log, now := before.rooms[r].log, After(before, a).rooms[r].log;
    if m :| Says(before, a, r, m) {
      TranscriptMore(init, a, r, log, at, m);
      more := at + [|init|];
      if m.Presence? {
        RostersTrue(init, a.k);
        RosterWasMore(init, a, r, m.users);
      }
    } else {
      TranscriptSame(init, a, r, log, at);
      more := at;
    }
    forall j | 0 <= j < |more| && now[j].Presence? ensures RosterWas(init + [a], r, now[j].users) {
      if j < |log| {
        assert now[j] == log[j];
        RosterWasMore(init, a, r, log[j].users);
      }
    }
  }

  lemma RoomsStay(h: State, a: Action)
    ensures |h.rooms| <= |After(h, a).rooms|
  {
  }

  /** A relayed text is put on the channel of every other member that has space for it, and on no other channel. */
  lemma RelayReaches(h: State, c: nat, text: string, d: nat)
    requires Inv(h) && c < |h.clients| && h.clients[c].joined.Some? && d < |h.clients|
    ensures
      var was, now := h.clients[d], After(h, Relay(c, text)).clients[d];
      if d != c && d in h.rooms[h.clients[c].room].members && |was.put| < was.taken + 64
      then now == was.(put := was.put + [Relayed(c, text)])
      else now == was.(closes := now.closes)
  {
    assert ClientsServed(h);
  }

  /** Connecting finds the room its name leads to, or makes an empty one, and is followed by joining. */
  lemma ConnectFinds(h: State, name: string, user: User)
    ensures
      var h', r := After(h, Connect(name, user)), if name in h.index then h.index[name] else |h.rooms|;
      && h'.rooms == (if name in h.index then h.rooms else h.rooms + [Room(name, {}, [])])
      && h'.index == h.index[name := r]
      && h'.clients == h.clients + [Client(user, name, r, None, [], 0, 0)]
      && h'.todo == h.todo + [Join(|h.clients|)]
  {
  }

  /** Joining puts the client among the members, and is followed by reading the roster. */
  lemma JoinEnters(h: State, k: nat, users: seq<User>)
    requires Inv(h) && k < |h.todo| && h.todo[k].Join?
    ensures
      var h', c := After(h, Perform(k, users)), h.todo[k].client;
      && c < |h.clients| && h.clients[c].room < |h.rooms|
      && var client, room := h.clients[c], h.rooms[h.clients[c].room];
      && h'.todo == h.todo[..k] + h.todo[k + 1..] + [ReadRoster(client.room)]
      && h'.rooms == h.rooms[client.room := room.(members := room.members + {c})]
      && h'.clients == h.clients[c := client.(joined := Some(|room.log|))]
  {
    assert TaskSound(h, h.todo[k]) && ClientsServed(h);
  }

  /** Reading the roster is followed by sending it; a dropped name leads nowhere; neither does more. */
  lemma TasksDo(h: State, k: nat, users: seq<User>)
    requires k < |h.todo|
    ensures
      var h', left := After(h, Perform(k, users)), h.todo[..k] + h.todo[k + 1..];
      && (h.todo[k].ReadRoster? && RosterAt(h, h.todo[k].room, users) ==>
            h' == h.(todo := left + [SendRoster(h.todo[k].room, users)]))
      && (h.todo[k].SendRoster? ==> h'.todo == left && h'.index == h.index)
      && (h.todo[k].Drop? ==> h' == h.(todo := left, index := h.index - {h.todo[k].name}))
  {
  }

  /** Leaving is followed by a presence broadcast to those who stay, or by dropping the name when nobody does. */
  lemma RemoveAnnounced(h: State, c: nat)
    requires Inv(h) && c < |h.clients| && h.clients[c].joined.Some?
    ensures
      var h', k := After(h, Action.Remove(c)), h.clients[c];
      && k.room < |h.rooms| && k.room < |h'.rooms|
      && h'.rooms[k.room].members == h.rooms[k.room].members - {c}
      && h'.todo == h.todo + [if h'.rooms[k.room].members == {} then Drop(k.roomName) else ReadRoster(k.room)]
  {
    assert Served(c, h.clients[c], h.rooms[h.clients[c].room]);
  }

  /** The write pump takes the next message off the channel, and nothing else changes. */
  lemma ReceiveTakes(h: State, c: nat)
    requires c < |h.clients|
    ensures
      var h', k := After(h, Receive(c)), h.clients[c];
      h' == if k.taken >= |k.put| then h else h.(clients := h.clients[c := k.(taken := k.taken + 1)])
  {
  }

  // ----- The index of rooms -----

  /** Every room that has members is the one its name leads to. */
  ghost predicate Indexed(h: State) {
    forall r | 0 <= r < |h.rooms| && h.rooms[r].members != {} ::
      h.rooms[r].name in h.index && h.index[h.rooms[r].name] == r
  }

  /** The two steps that break this: dropping a name whose room was joined again, and joining a room dropped meanwhile. */
  predicate Misplaces(h: State, a: Action) {
    && a.Perform? && a.k < |h.todo|
    && match h.todo[a.k]
       case Drop(name) => name in h.index && h.index[name] < |h.rooms| && h.rooms[h.index[name]].members != {}
       case Join(c) =>
         && c < |h.clients| && h.clients[c].joined.None?
         && (h.clients[c].roomName !in h.index || h.index[h.clients[c].roomName] != h.clients[c].room)
       case _ => false
  }

  /** So the index keeps leading to every populated room exactly when the step is not one of these. */
  lemma IndexedIff(h: State, a: Action)
    requires Inv(h) && Indexed(h)
    ensures Indexed(After(h, a)) <==> !Misplaces(h, a)
  {
    if Misplaces(h, a) {
      IndexedLost(h, a);
    } else {
      IndexedKept(h, a);
    }
  }

  lemma IndexedLost(h: State, a: Action)
    requires Inv(h) && Misplaces(h, a)
    ensures !Indexed(After(h, a))
  {
    match h.todo[a.k]
    case Drop(name) =>
      assert After(h, a).rooms[h.index[name]].members != {};
    case Join(c) =>
      assert c in After(h, a).rooms[h.clients[c].room].members;
  }

  /** Fewer members in the same rooms cannot break it, nor can names that lead further. */
  lemma StillIndexed(h: State, h': State)
    requires Indexed(h) && |h.rooms| <= |h'.rooms|
    requires forall name | name in h.index :: name in h'.index && h'.index[name] == h.index[name]
    requires forall r | 0 <= r < |h.rooms| ::
               h'.rooms[r].name == h.rooms[r].name && h'.rooms[r].members <= h.rooms[r].members
    requires forall r | |h.rooms| <= r < |h'.rooms| :: h'.rooms[r].members == {}
    ensures Indexed(h')
  {
    forall r | 0 <= r < |h'.rooms| && h'.rooms[r].members != {}
      ensures h'.rooms[r].name in h'.index && h'.index[h'.rooms[r].name] == r
    {
      assert h.rooms[r].members != {};
    }
  }

  lemma IndexedKept(h: State, a: Action)
    requires Inv(h) && Indexed(h) && !Misplaces(h, a)
    ensures Indexed(After(h, a))
  {
    match a
    case Perform(k, users) =>
      if k < |h.todo| {
        PerformKeepsIndexed(h, k, users);
      }
    case _ => StillIndexed(h, After(h, a));
  }

  lemma PerformKeepsIndexed(h: State, k: nat, users: seq<User>)
    requires Inv(h) && Indexed(h) && k < |h.todo| && !Misplaces(h, Perform(k, users))
    ensures Indexed(After(h, Perform(k, users)))
  {
    var h' := After(h, Perform(k, users));
    match h.todo[k]
    case Join(_) =>
    case Drop(name) =>
      forall r | 0 <= r < |h'.rooms| && h'.rooms[r].members != {}
        ensures h'.rooms[r].name in h'.index && h'.index[h'.rooms[r].name] == r
      {
        assert h.rooms[r].name in h.index;
      }
    case _ => StillIndexed(h, h');
  }

  lemma RunMore(actions: seq<Action>, a: Action)
    ensures Run(NEW_HUB, actions + [a]) == After(Run(NEW_HUB, actions), a)
  {
    assert (actions + [a])[..|actions|] == actions;
  }

  /**
   * And these steps happen: when one client leaves while others connect, two
   * clients can end up members of different rooms under one name.
   */
  lemma RoomCanSplit(u: User)
    ensures exists actions, r, s, c, d ::
              var h := Run(NEW_HUB, actions);
              && 0 <= r < s < |h.rooms| && h.rooms[r].name == h.rooms[s].name
              && c in h.rooms[r].members && d in h.rooms[s].members
  {
    var name := "r";
    var h1 := After(NEW_HUB, Connect(name, u));
    RunMore([], Connect(name, u));
    assert h1.todo == [Join(0)] && h1.rooms == [Room(name, {}, [])] && h1.clients[0].room == 0;
    assert Without(h1.todo, 0) == [];
    var h2 := After(h1, Perform(0, []));
    RunMore([Connect(name, u)], Perform(0, []));
    assert h2.rooms[0].members == {0} && |h2.rooms| == 1 && h2.todo == [ReadRoster(0)];
    var h3 := After(h2, Remove(0));
    RunMore([Connect(name, u)] + [Perform(0, [])], Remove(0));
    assert {0} - {0} == {};
    assert h3.todo == [ReadRoster(0), Drop(name)];
    assert [] + [Connect(name, u)] == [Connect(name, u)];
    SplitFrom([Connect(name, u)] + [Perform(0, [])] + [Remove(0)], h3, u, name);
  }

  lemma SplitFrom(before: seq<Action>, h3: State, u: User, name: string)
    requires Run(NEW_HUB, before) == h3
    requires |h3.rooms| == 1 && h3.rooms[0].name == name && h3.index == map[name := 0] && |h3.clients| == 1
    requires h3.todo == [ReadRoster(0), Drop(name)]
    ensures exists actions, r, s, c, d ::
              var h := Run(NEW_HUB, actions);
              && 0 <= r < s < |h.rooms| && h.rooms[r].name == h.rooms[s].name
              && c in h.rooms[r].members && d in h.rooms[s].members
  {
    var h4 := After(h3, Connect(name, u));
    RunMore(before, Connect(name, u));
    assert h4.todo == [ReadRoster(0), Drop(name), Join(1)];
    var h5 := After(h4, Perform(2, []));
    RunMore(before + [Connect(name, u)], Perform(2, []));
    assert 1 in h5.rooms[0].members && h5.todo[1] == Drop(name);
    SplitLate(before + [Connect(name, u)] + [Perform(2, [])], h5, u, name);
  }

  lemma SplitLate(early: seq<Action>, h5: State, u: User, name: string)
    requires Run(NEW_HUB, early) == h5
    requires |h5.rooms| == 1 && h5.rooms[0].name == name && 1 in h5.rooms[0].members && |h5.clients| == 2
    requires |h5.todo| > 1 && h5.todo[1] == Drop(name)
    ensures exists actions, r, s, c, d ::
              var h := Run(NEW_HUB, actions);
              && 0 <= r < s < |h.rooms| && h.rooms[r].name == h.rooms[s].name
              && c in h.rooms[r].members && d in h.rooms[s].members
  {
    var h6 := After(h5, Perform(1, []));
    RunMore(early, Perform(1, []));
    assert name !in h6.index && h6.rooms == h5.rooms && h6.clients == h5.clients;
    SplitLast(early + [Perform(1, [])], h6, u, name);
  }

  lemma SplitLast(early: seq<Action>, h6: State, u: User, name: string)
    requires Run(NEW_HUB, early) == h6
    requires |h6.rooms| == 1 && h6.rooms[0].name == name && 1 in h6.rooms[0].members && |h6.clients| == 2
    requires name !in h6.index
    ensures exists actions, r, s, c, d ::
              var h := Run(NEW_HUB, actions);
              && 0 <= r < s < |h.rooms| && h.rooms[r].name == h.rooms[s].name
              && c in h.rooms[r].members && d in h.rooms[s].members
  {
    var h7 := After(h6, Connect(name, u));
    RunMore(early, Connect(name, u));
    var last := |h7.todo| - 1;
    assert h7.todo[last] == Join(2) && h7.clients[2].room == 1 && h7.rooms[1].name == name;
    var h8 := After(h7, Perform(last, []));
    RunMore(early + [Connect(name, u)], Perform(last, []));
    assert 1 in h8.rooms[0].members && 2 in h8.rooms[1].members;
  }

  // ----- The hub -----

  class Hub {
    var rooms: seq<Room>
    var index: map<string, nat>
    var clients: seq<Client>
    var todo: seq<Task>
    var panicked: bool

    ghost function Value(): State
      reads this
    {
      State(rooms, index, clients, todo, panicked)
    }

    /** What the hub holds comes about by some sequence of critical sections. */
    ghost predicate Valid()
      reads this
    {
      Reachable(Value())
    }

    constructor ()
      ensures Valid() && Value() == NEW_HUB
    {
      rooms, index, clients, todo, panicked := [], map[], [], [], false;
      new;
      assert Value() == Run(NEW_HUB, []);
    }

    /** The first critical section of Add. */
    method Connect(name: string, user: User) returns (c: nat)
      requires Valid()
      modifies this
      ensures Valid() && Value() == After(old(Value()), Action.Connect(name, user)) && c == |old(clients)|
    {
      StepReachable(Value(), Action.Connect(name, user));
      ReachableInv(Value());
      if name !in index {
        rooms := rooms + [Room(name, {}, [])];
        index := index[name := |rooms| - 1];
      }
      c := |clients|;
      clients := clients + [Client(user, name, index[name], None, [], 0, 0)];
      todo := todo + [Join(c)];
    }

    /** The second: the client enters the set of its room, and its pumps start. */
    method Enter(k: nat)
      requires Valid() && k < |todo| && todo[k].Join?
      modifies this
      ensures Valid() && Value() == After(old(Value()), Perform(k, []))
    {
      StepReachable(Value(), Perform(k, []));
      ReachableInv(Value());
      assert TaskSound(Value(), todo[k]);
      var c := todo[k].client;
      todo := todo[..k] + todo[k + 1..];
      var client := clients[c];
      var r := rooms[client.room];
      rooms := rooms[client.room := r.(members := r.members + {c})];
      clients := clients[c := client.(joined := Some(|r.log|))];
      todo := todo + [Task.ReadRoster(client.room)];
    }

    /** Offers `m` to one member, who is closed and taken out of the room when its queue is full. */
    method Offer(r: nat, c: nat, m: Message)
      requires r < |rooms| && c < |clients|
      modifies this`rooms, this`clients, this`panicked
      ensures clients == old(clients)[c := Offered(old(clients)[c], m)]
      ensures rooms == old(rooms)[r := old(rooms)[r].(members :=
                         if HasSpace(old(clients)[c]) then old(rooms)[r].members else old(rooms)[r].members - {c})]
      ensures panicked == (old(panicked) || old(clients)[c].closes > 0)
    {
      var k := clients[c];
      if k.closes > 0 {
        panicked := true;
      }
      if |k.put| - k.taken < SEND_BUFFER_SIZE {
        clients := clients[c := k.(put := k.put + [m])];
        assert rooms == rooms[r := rooms[r]];
      } else {
        clients := clients[c := k.(closes := k.closes + 1)];
        rooms := rooms[r := rooms[r].(members := rooms[r].members - {c})];
      }
    }

    /** Fans a message out to every member. */
    method BroadcastAll(r: nat, users: seq<User>)
      requires r < |rooms| && LiveIn(rooms[r].members, r, clients)
      modifies this
      ensures Value() == Broadcast(old(Value()), r, Presence(users))
    {
      ghost var h := Value();
      var m := Presence(users);
      var left := rooms[r].members;
      ghost var done: set<nat> := {};
      StartOffers(h.rooms[r], h.clients, m);
      while left != {}
        invariant left !! done && left + done == Targets(h.rooms[r], m)
        invariant Offering(h, Value(), r, m, done)
        decreases left
      {
        var c :| c in left;
        ghost var before := Value();
        Offer(r, c, m);
        NextOffered(h, before, Value(), r, m, done, c);
        left, done := left - {c}, done + {c};
      }
      assert done == Targets(h.rooms[r], m);
      AllOffered(h, Value(), r, m);
      rooms := rooms[r := rooms[r].(log := rooms[r].log + [m])];
    }

    /** Fans a client's message out to the other members. */
    method BroadcastExcept(r: nat, sender: nat, text: string)
      requires r < |rooms| && LiveIn(rooms[r].members, r, clients)
      modifies this
      ensures Value() == Broadcast(old(Value()), r, Relayed(sender, text))
    {
      ghost var h := Value();
      var m := Relayed(sender, text);
      var left := rooms[r].members;
      ghost var done: set<nat> := {};
      StartOffers(h.rooms[r], h.clients, m);
      while left != {}
        invariant left <= h.rooms[r].members && done == Targets(h.rooms[r], m) - left
        invariant Offering(h, Value(), r, m, done)
        decreases left
      {
        var c :| c in left;
        if c != sender {
          ghost var before := Value();
          Offer(r, c, m);
          NextOffered(h, before, Value(), r, m, done, c);
          done := done + {c};
        }
        left := left - {c};
      }
      assert done == Targets(h.rooms[r], m);
      AllOffered(h, Value(), r, m);
      rooms := rooms[r := rooms[r].(log := rooms[r].log + [m])];
    }

    /** The first part of a presence broadcast: the member list, each user once, whatever the iteration meets first. */
    method ReadRoster(k: nat) returns (users: seq<User>)
      requires Valid() && k < |todo| && todo[k].ReadRoster?
      modifies this
      ensures Valid() && Value() == After(old(Value()), Perform(k, users))
      ensures var r := old(todo)[k].room; r < |rooms| && Roster(clients, rooms[r].members, users)
    {
      ReachableInv(Value());
      assert TaskSound(Value(), todo[k]);
      var r := todo[k].room;
      assert LiveIn(rooms[r].members, r, clients);
      users := RosterOf(clients, rooms[r].members);
      StepReachable(Value(), Perform(k, users));
      todo := todo[..k] + todo[k + 1..] + [SendRoster(r, users)];
    }

    static method RosterOf(clients: seq<Client>, members: set<nat>) returns (users: seq<User>)
      requires forall c | c in members :: c < |clients|
      ensures Roster(clients, members, users)
    {
      users := [];
      var left := members;
      ghost var done: set<nat> := {};
      while left != {}
        invariant left !! done && left + done == members
        invariant Roster(clients, done, users)
        decreases left
      {
        var c :| c in left;
        RosterMore(clients, done, users, c);
        left, done := left - {c}, done + {c};
        if !Lists(users, clients[c].user.id) {
          users := users + [clients[c].user];
        }
      }
      assert done == members;
    }

    /** The second part: the list goes to whoever is a member by then. */
    method SendPresence(k: nat)
      requires Valid() && k < |todo| && todo[k].SendRoster?
      modifies this
      ensures Valid() && Value() == After(old(Value()), Perform(k, []))
    {
      StepReachable(Value(), Perform(k, []));
      ReachableInv(Value());
      assert TaskSound(Value(), todo[k]) && LiveIn(rooms[todo[k].room].members, todo[k].room, clients);
      var task := todo[k];
      todo := todo[..k] + todo[k + 1..];
      BroadcastAll(task.room, task.users);
    }

    /** The read pump relays what a client sends to the others in its room. */
    method RelayMessage(c: nat, text: string)
      requires Valid() && Reading(Value(), c)
      modifies this
      ensures Valid() && Value() == After(old(Value()), Relay(c, text))
    {
      StepReachable(Value(), Relay(c, text));
      ReachableInv(Value());
      assert LiveIn(rooms[clients[c].room].members, clients[c].room, clients);
      BroadcastExcept(clients[c].room, c, text);
    }

    /** Takes the client out of its room and closes its channel, unless that was done before. */
    method Remove(c: nat) returns (empty: bool)
      requires Valid() && Reading(Value(), c)
      modifies this
      ensures Valid() && Value() == After(old(Value()), Action.Remove(c))
      ensures empty <==> old(rooms)[old(clients)[c].room].members - {c} == {}
    {
      StepReachable(Value(), Action.Remove(c));
      ghost var h := Value();
      var k := clients[c];
      var r := rooms[k.room];
      if c in r.members {
        rooms := rooms[k.room := r.(members := r.members - {c})];
        panicked := panicked || k.closes > 0;
        clients := clients[c := k.(closes := k.closes + 1)];
      }
      empty := r.members - {c} == {};
      assert Value() == Removing(h, c);
      todo := todo + [if empty then Drop(k.roomName) else Task.ReadRoster(k.room)];
    }

    /** What the last one out does next. */
    method DropRoom(k: nat)
      requires Valid() && k < |todo| && todo[k].Drop?
      modifies this
      ensures Valid() && Value() == After(old(Value()), Perform(k, []))
    {
      StepReachable(Value(), Perform(k, []));
      index := index - {todo[k].name};
      todo := todo[..k] + todo[k + 1..];
    }

    /** The write pump takes messages in the order they were put. */
    method TakeNext(c: nat) returns (m: Option<Message>)
      requires Valid() && c < |clients|
      modifies this
      ensures Valid() && Value() == After(old(Value()), Receive(c))
      ensures m == if old(clients)[c].taken < |old(clients)[c].put| then Some(old(clients)[c].put[old(clients)[c].taken])
                   else None
    {
      StepReachable(Value(), Receive(c));
      var k := clients[c];
      if k.taken < |k.put| {
        m := Some(k.put[k.taken]);
        clients := clients[c := k.(taken := k.taken + 1)];
      } else {
        m := None;
      }
    }
  }

  lemma RosterMore(clients: seq<Client>, done: set<nat>, users: seq<User>, c: nat)
    requires c < |clients| && Roster(clients, done, users)
    ensures
      var user := clients[c].user;
      Roster(clients, done + {c}, if Lists(users, user.id) then users else users + [user])
  {
    var user := clients[c].user;
    var users' := if Lists(users, user.id) then users else users + [user];
    forall i | 0 <= i < |users'| ensures HasClient(clients, done + {c}, users'[i]) {
      if i < |users| {
        assert HasClient(clients, done, users[i]);
      }
    }
    forall d | d in done + {c} && d < |clients| ensures Lists(users', clients[d].user.id) {
      if d == c {
        assert !Lists(users, user.id) ==> users'[|users|] == user;
      } else {
        assert Lists(users, clients[d].user.id);
        var i :| 0 <= i < |users| && users[i].id == clients[d].user.id;
        assert users'[i] == users[i];
      }
    }
  }

  /** How far a broadcast has come: `done` are the members already offered the message. */
  ghost predicate Offering(h: State, h': State, r: nat, m: Message, done: set<nat>) {
    && r < |h.rooms|
    && h' == h.(clients := Offers(h.clients, done, m),
                rooms := h.rooms[r := h.rooms[r].(members := Left(h.rooms[r].members, h.clients, done))],
                panicked := h.panicked || AnyClosed(h.clients, done))
  }

  lemma AllOffered(h: State, h': State, r: nat, m: Message)
    requires r < |h.rooms| && Offering(h, h', r, m, Targets(h.rooms[r], m))
    ensures h'.(rooms := h'.rooms[r := h'.rooms[r].(log := h'.rooms[r].log + [m])]) == Broadcast(h, r, m)
  {
  }

  lemma StartOffers(r: Room, clients: seq<Client>, m: Message)
    ensures Offers(clients, {}, m) == clients && Left(r.members, clients, {}) == r.members
  {
  }

  lemma NextOffered(h: State, h1: State, h2: State, r: nat, m: Message, done: set<nat>, c: nat)
    requires Offering(h, h1, r, m, done) && c !in done && c < |h.clients|
    requires h2.clients == h1.clients[c := Offered(h1.clients[c], m)]
    requires h2.rooms == h1.rooms[r := h1.rooms[r].(members :=
                           if HasSpace(h1.clients[c]) then h1.rooms[r].members else h1.rooms[r].members - {c})]
    requires h2.panicked == (h1.panicked || h1.clients[c].closes > 0)
    requires h2.index == h1.index && h2.todo == h1.todo
    ensures Offering(h, h2, r, m, done + {c})
  {
    assert Offers(h.clients, done + {c}, m) == h2.clients;
    assert Left(h.rooms[r].members, h.clients, done + {c}) == h2.rooms[r].members;
  }
}
