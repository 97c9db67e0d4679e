/** The renderer's message bus: each channel holds at most one waiting promise,
    and a message sent on the channel resolves that promise and no other. */
module Bus {

  /** A waiting promise's `resolve` function, identified by the order in which
      `waitFor` created it. */
  type Token = nat

  /** A promise resolved with a message. */
  datatype Delivery<T> = Delivery(token: Token, data: T)

  /** The bus's map together with what it has resolved so far and how many
      promises it has handed out. */
  datatype BusState<T> = BusState(resolvers: map<string, Token>, delivered: seq<Delivery<T>>, issued: nat)

  /** `send`: a waiter on the channel is removed, then resolved with the data;
      without one, nothing happens and the data is dropped. */
  function Sent<T>(st: BusState<T>, channel: string, data: T): BusState<T> {
    if channel in st.resolvers then
      st.(resolvers := st.resolvers - {channel},
          delivered := st.delivered + [Delivery(st.resolvers[channel], data)])
    else st
  }

  /** `waitFor`: a new promise whose `resolve` takes the channel's slot. */
  function Waited<T>(st: BusState<T>, channel: string): BusState<T> {
    st.(resolvers := st.resolvers[channel := st.issued], issued := st.issued + 1)
  }

  /** A sequence of calls on the bus. */
  datatype Call<T> = SendCall(channel: string, data: T) | WaitCall(channel: string)

  function Run<T>(st: BusState<T>, calls: seq<Call<T>>): BusState<T>
    decreases |calls|
  {
    if calls == [] then st
    else
      var next := match calls[0]
        case SendCall(c, d) => Sent(st, c, d)
        case WaitCall(c) => Waited(st, c);
      Run(next, calls[1..])
  }

  predicate WasDelivered<T>(st: BusState<T>, t: Token) {
    exists k :: 0 <= k < |st.delivered| && st.delivered[k].token == t
  }

  predicate Waiting<T>(st: BusState<T>, t: Token) {
    exists c :: c in st.resolvers && st.resolvers[c] == t
  }

  /** Every promise handed out is waiting on at most one channel, or already resolved,
      and no promise was resolved twice. */
  predicate Valid<T>(st: BusState<T>) {
    && (forall c :: c in st.resolvers ==> st.resolvers[c] < st.issued)
    && (forall k :: 0 <= k < |st.delivered| ==> st.delivered[k].token < st.issued)
    && (forall c, c' :: c in st.resolvers && c' in st.resolvers && c != c' ==> st.resolvers[c] != st.resolvers[c'])
    && (forall c, k :: c in st.resolvers && 0 <= k < |st.delivered| ==> st.delivered[k].token != st.resolvers[c])
    && (forall k, k' :: 0 <= k < k' < |st.delivered| ==> st.delivered[k].token != st.delivered[k'].token)
  }

  /** A send with a waiter resolves exactly that waiter, once, with the data sent. */
  lemma SendDelivers<T>(st: BusState<T>, channel: string, data: T)
    requires channel in st.resolvers
    ensures channel !in Sent(st, channel, data).resolvers
    ensures Sent(st, channel, data).delivered == st.delivered + [Delivery(st.resolvers[channel], data)]
  {
  }

  /** A send with no waiter changes nothing. */
  lemma SendWithoutWaiter<T>(st: BusState<T>, channel: string, data: T)
    requires channel !in st.resolvers
    ensures Sent(st, channel, data) == st
  {
  }

  /** After a send that delivered, a second send on the channel is a no-op. */
  lemma SecondSendIsNoOp<T>(st: BusState<T>, channel: string, first: T, second: T)
    ensures Sent(Sent(st, channel, first), channel, second) == Sent(st, channel, first)
  {
  }

  /** Neither call touches another channel's entry. */
  lemma OtherChannelsUntouched<T>(st: BusState<T>, channel: string, other: string, data: T)
    requires other != channel
    ensures other in Sent(st, channel, data).resolvers <==> other in st.resolvers
    ensures other in Waited(st, channel).resolvers <==> other in st.resolvers
    ensures other in st.resolvers ==>
      Sent(st, channel, data).resolvers[other] == st.resolvers[other] == Waited(st, channel).resolvers[other]
  {
  }

  /** `waitFor` puts the new promise in the slot, pushing out the one that was there. */
  lemma WaitReplaces<T>(st: BusState<T>, channel: string)
    requires Valid(st)
    ensures Waited(st, channel).resolvers[channel] == st.issued
    ensures Valid(Waited(st, channel))
    ensures channel in st.resolvers ==> !Waiting(Waited(st, channel), st.resolvers[channel])
  {
  }

  lemma SendKeepsValid<T>(st: BusState<T>, channel: string, data: T)
    requires Valid(st)
    ensures Valid(Sent(st, channel, data))
  {
    if channel in st.resolvers {
      var r := Sent(st, channel, data);
      var t := st.resolvers[channel];
      assert forall k :: 0 <= k < |st.delivered| ==> r.delivered[k] == st.delivered[k];
      assert r.delivered[|st.delivered|].token == t;
    }
  }

  /** Any run of calls keeps the bus valid, so no promise is ever resolved twice. */
  lemma {:induction false} RunKeepsValid<T>(st: BusState<T>, calls: seq<Call<T>>)
    requires Valid(st)
    ensures Valid(Run(st, calls))
    decreases |calls|
  {
    if calls != [] {
      match calls[0]
      case SendCall(c, d) =>
        SendKeepsValid(st, c, d);
        RunKeepsValid(Sent(st, c, d), calls[1..]);
      case WaitCall(c) =>
        WaitReplaces(st, c);
        RunKeepsValid(Waited(st, c), calls[1..]);
    }
  }

  /** A promise handed out but neither waiting nor resolved. */
  predicate Abandoned<T>(st: BusState<T>, t: Token) {
    t < st.issued && !Waiting(st, t) && !WasDelivered(st, t)
  }

  lemma {:induction false} AbandonedStaysAbandoned<T>(st: BusState<T>, t: Token, calls: seq<Call<T>>)
    requires Abandoned(st, t)
    ensures Abandoned(Run(st, calls), t)
    decreases |calls|
  {
    if calls != [] {
      var next := match calls[0]
        case SendCall(c, d) => Sent(st, c, d)
        case WaitCall(c) => Waited(st, c);
      if calls[0].SendCall? {
        var c := calls[0].channel;
        if c in st.resolvers {
          assert st.resolvers[c] != t;
          assert forall k :: 0 <= k < |st.delivered| ==> next.delivered[k] == st.delivered[k];
          assert forall c' :: c' in next.resolvers ==> c' in st.resolvers && next.resolvers[c'] == st.resolvers[c'];
        }
      } else {
        assert next.resolvers[calls[0].channel] != t;
      }
      assert Abandoned(next, t);
      AbandonedStaysAbandoned(next, t, calls[1..]);
    }
  }

  /** A promise pushed out by a later `waitFor` on its channel never resolves,
      whatever the bus is asked to do afterwards. */
  lemma ReplacedNeverResolves<T>(st: BusState<T>, channel: string, calls: seq<Call<T>>)
    requires Valid(st) && channel in st.resolvers
    ensures !WasDelivered(Run(Waited(st, channel), calls), st.resolvers[channel])
  {
    WaitReplaces(st, channel);
    AbandonedStaysAbandoned(Waited(st, channel), st.resolvers[channel], calls);
  }

  /** The bus object: the map of waiters is updated in place. */
  class MessageBus<T> {
    var resolvers: map<string, Token>
    var delivered: seq<Delivery<T>>
    var issued: nat

    function State(): BusState<T>
      reads this
    {
      BusState(resolvers, delivered, issued)
    }

    constructor()
      ensures State() == BusState(map[], [], 0)
      ensures Valid(State())
    {
      resolvers := map[];
      delivered := [];
      issued := 0;
    }

    method Send(channel: string, data: T)
      modifies this
      ensures State() == Sent(old(State()), channel, data)
      ensures old(Valid(State())) ==> Valid(State())
    {
      if channel in resolvers {
        var resolver := resolvers[channel];
        resolvers := resolvers - {channel};
        delivered := delivered + [Delivery(resolver, data)];
      }
      if old(Valid(State())) {
        SendKeepsValid(old(State()), channel, data);
      }
    }

    method WaitFor(channel: string) returns (promise: Token)
      modifies this
      ensures promise == old(issued)
      ensures State() == Waited(old(State()), channel)
      ensures old(Valid(State())) ==> Valid(State())
    {
      promise := issued;
      issued := issued + 1;
      resolvers := resolvers[channel := promise];
      if old(Valid(State())) {
        WaitReplaces(old(State()), channel);
      }
    }
  }
}
