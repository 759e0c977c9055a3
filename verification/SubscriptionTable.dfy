/** Who is connected, under which account, and who holds which topic. */
module SubscriptionTable {
  import opened Wrappers

  datatype Table = Table(active: set<string>, subs: map<string, set<string>>, users: map<string, nat>)

  // -- what the table says, and what each operation makes it say ------------------------------

  function Subscribers(t: Table, topic: string): set<string> {
    if topic in t.subs then t.subs[topic] else {}
  }

  /** No topic is kept for nobody: the broadcaster works for every topic that is there. */
  predicate NoEmptyTopic(t: Table) {
    forall topic :: topic in t.subs ==> t.subs[topic] != {}
  }

  /** The table with one topic's subscribers replaced; a topic nobody holds goes. */
  function WithTopic(t: Table, topic: string, clients: set<string>): Table {
    t.(subs := if clients == {} then t.subs - {topic} else t.subs[topic := clients])
  }

  function Connected(t: Table, client: string, user: Option<nat>): Table {
    t.(active := t.active + {client},
       users := match user { case Some(u) => t.users[client := u] case None => t.users })
  }

  function Without(subs: map<string, set<string>>, gone: set<string>): map<string, set<string>> {
    map topic | topic in subs && subs[topic] - gone != {} :: subs[topic] - gone
  }

  function Disconnected(t: Table, gone: set<string>): Table {
    Table(t.active - gone, Without(t.subs, gone), t.users - gone)
  }

  function Others(t: Table, topic: string, keep: nat): set<string> {
    set c | c in Subscribers(t, topic) && !(c in t.users && t.users[c] == keep)
  }

  lemma WithTopicMeans(t: Table, topic: string, clients: set<string>, other: string)
    ensures Subscribers(WithTopic(t, topic, clients), other)
         == if other == topic then clients else Subscribers(t, other)
    ensures NoEmptyTopic(t) ==> NoEmptyTopic(WithTopic(t, topic, clients))
  {
  }

  /** A disconnected client holds no topic, and nobody else loses one. */
  lemma DisconnectedMeans(t: Table, gone: set<string>, topic: string)
    ensures Subscribers(Disconnected(t, gone), topic) == Subscribers(t, topic) - gone
    ensures NoEmptyTopic(Disconnected(t, gone))
    ensures Disconnected(t, gone).active !! gone && Disconnected(t, gone).users.Keys !! gone
  {
  }

  lemma DisconnectedTwice(t: Table, a: set<string>, b: set<string>)
    ensures Disconnected(Disconnected(t, a), b) == Disconnected(t, a + b)
  {
    assert t.active - a - b == t.active - (a + b);
    forall topic | topic in t.subs ensures t.subs[topic] - a - b == t.subs[topic] - (a + b) {
    }
    assert Without(Without(t.subs, a), b) == Without(t.subs, a + b);
    assert t.users - a - b == t.users - (a + b);
  }

  lemma DisconnectedNobody(t: Table)
    requires NoEmptyTopic(t)
    ensures Disconnected(t, {}) == t
  {
    assert forall topic :: topic in t.subs ==> t.subs[topic] - {} == t.subs[topic];
    assert Without(t.subs, {}) == t.subs;
  }

  // -- the manager ---------------------------------------------------------------------------------

  class WebSocketConnectionManager {
    var active: set<string>
    var subscriptions: map<string, set<string>>
    var users: map<string, nat>

    ghost function State(): Table
      reads this
    {
      Table(active, subscriptions, users)
    }

    ghost predicate Valid()
      reads this
    {
      NoEmptyTopic(State())
    }

    constructor ()
      ensures Valid() && State() == Table({}, map[], map[])
    {
      active, subscriptions, users := {}, map[], map[];
    }

    method Connect(client: string, user: Option<nat>)
      requires Valid()
      modifies this
      ensures Valid() && State() == Connected(old(State()), client, user)
    {
      active := active + {client};
      if user.Some? {
        users := users[client := user.value];
      }
    }

    method Disconnect(client: string)
      requires Valid()
      modifies this
      ensures Valid() && State() == Disconnected(old(State()), {client})
    {
      active := active - {client};
      users := users - {client};
      ghost var was := subscriptions;
      var left := subscriptions.Keys;
      while left != {}
        invariant left <= was.Keys && active == old(active) - {client} && users == old(users) - {client}
        invariant forall topic :: topic in left ==> topic in subscriptions && subscriptions[topic] == was[topic]
        invariant forall topic :: topic !in left ==>
          (topic in subscriptions <==> topic in was && was[topic] - {client} != {})
        invariant forall topic :: topic !in left && topic in subscriptions ==>
          subscriptions[topic] == was[topic] - {client}
        decreases left
      {
        var topic :| topic in left;
        var clients := subscriptions[topic] - {client};
        subscriptions := if clients == {} then subscriptions - {topic} else subscriptions[topic := clients];
        left := left - {topic};
      }
      assert subscriptions == Without(was, {client});
    }

    function SubscribersOf(topic: string): set<string>
      reads this
    {
      if topic in subscriptions then subscriptions[topic] else {}
    }

    method Subscribe(client: string, topic: string)
      requires Valid()
      modifies this
      ensures Valid()
      ensures State() == WithTopic(old(State()), topic, Subscribers(old(State()), topic) + {client})
    {
      if topic !in subscriptions {
        subscriptions := subscriptions[topic := {}];
      }
      subscriptions := subscriptions[topic := subscriptions[topic] + {client}];
    }

    method Unsubscribe(client: string, topic: string)
      requires Valid()
      modifies this
      ensures Valid()
      ensures State() == WithTopic(old(State()), topic, Subscribers(old(State()), topic) - {client})
    {
      if topic in subscriptions {
        subscriptions := subscriptions[topic := subscriptions[topic] - {client}];
        if subscriptions[topic] == {} {
          subscriptions := subscriptions - {topic};
        }
      } else {
        assert subscriptions - {topic} == subscriptions;
      }
      assert State().subs == WithTopic(old(State()), topic, Subscribers(old(State()), topic) - {client}).subs;
    }

    /** Returns the connected former subscribers, who are then told. */
    method DropTopic(topic: string) returns (told: set<string>, count: nat)
      requires Valid()
      modifies this
      ensures Valid() && State() == WithTopic(old(State()), topic, {})
      ensures count == |Subscribers(old(State()), topic)| && told == Subscribers(old(State()), topic) * active
    {
      var gone := SubscribersOf(topic);
      subscriptions := subscriptions - {topic};
      told, count := gone * active, |gone|;
    }

    method WithdrawTopicFromOthers(topic: string, keepUser: nat) returns (told: set<string>, count: nat)
      requires Valid()
      modifies this
      ensures Valid()
      ensures var gone := Others(old(State()), topic, keepUser);
        && State() == WithTopic(old(State()), topic, Subscribers(old(State()), topic) - gone)
        && told == gone * active && count == |gone|
    {
      told, count := {}, 0;
      if topic !in subscriptions {
        assert subscriptions - {topic} == subscriptions;
        return;
      }
      var subscribers := subscriptions[topic];
      var gone := set c | c in subscribers && !(c in users && users[c] == keepUser);
      assert gone == Others(State(), topic, keepUser);
      if gone == {} {
        assert subscribers - gone == subscribers && subscriptions[topic := subscribers] == subscriptions;
        return;
      }
      subscriptions := subscriptions[topic := subscribers - gone];
      if subscribers - gone == {} {
        subscriptions := subscriptions - {topic};
      }
      assert State().subs == WithTopic(old(State()), topic, subscribers - gone).subs;
      told, count := gone * active, |gone|;
    }

    /** Sends to every connected subscriber; those whose send fails or times out are
        disconnected. */
    method BroadcastToTopic(topic: string, failing: set<string>) returns (sent: set<string>)
      requires Valid()
      modifies this
      ensures Valid()
      ensures var clients := Subscribers(old(State()), topic) * old(active);
        State() == Disconnected(old(State()), clients * failing) && sent == clients - failing
    {
      var clients := SubscribersOf(topic) * active;
      sent := clients - failing;
      ghost var was := State();
      DisconnectedNobody(was);
      var left := clients * failing;
      assert clients * failing - left == {};
      while left != {}
        invariant left <= clients * failing
        invariant Valid() && State() == Disconnected(was, clients * failing - left)
        decreases left
      {
        var client :| client in left;
        DisconnectedTwice(was, clients * failing - left, {client});
        assert clients * failing - left + {client} == clients * failing - (left - {client});
        Disconnect(client);
        left := left - {client};
      }
      assert clients * failing - {} == clients * failing;
    }
  }
}
