/** The in-process bus: one-slot signals that carry no payload. */
module Bus {

  /** A channel is known by its number; full holds the channels whose one slot is taken. */
  class InProc {
    var subs: map<string, set<nat>>
    var full: set<nat>
    var made: nat

    ghost predicate Valid()
      reads this
    {
      && (forall t :: t in subs ==> subs[t] != {})
      && (forall t, u, ch :: t in subs && u in subs && ch in subs[t] && ch in subs[u] ==> t == u)
      && (forall t, ch :: t in subs && ch in subs[t] ==> ch < made)
      && (forall ch :: ch in full ==> ch < made)
    }

    ghost function Topic(topic: string): set<nat>
      reads this
    {
      if topic in subs then subs[topic] else {}
    }

    constructor ()
      ensures Valid() && subs == map[]
    {
      subs, full, made := map[], {}, 0;
    }

    /** Every subscriber of the topic has a pending signal afterwards; a full
        slot is left as it is, and no other channel is touched. */
    method Publish(topic: string)
      requires Valid()
      modifies this`full
      ensures Valid() && full == old(full) + Topic(topic)
    {
      var todo := if topic in subs then subs[topic] else {};
      while todo != {}
        invariant todo <= Topic(topic)
        invariant forall ch :: ch in full <==> ch in old(full) || (ch in Topic(topic) && ch !in todo)
        decreases |todo|
      {
        var ch :| ch in todo;
        if ch !in full {
          full := full + {ch};
        }
        todo := todo - {ch};
      }
    }

    /** Receiving empties the slot. */
    method TryReceive(ch: nat) returns (got: bool)
      requires Valid()
      modifies this`full
      ensures Valid() && got == (ch in old(full)) && full == old(full) - {ch}
    {
      got := ch in full;
      full := full - {ch};
    }

    /** A new channel starts empty. */
    method Subscribe(topic: string) returns (ch: nat)
      requires Valid()
      modifies this
      ensures Valid() && ch !in full && full == old(full)
      ensures forall t :: t in old(subs) ==> ch !in old(subs)[t]
      ensures subs == old(subs)[topic := old(Topic(topic)) + {ch}]
    {
      ch := made;
      made := made + 1;
      if topic !in subs {
        subs := subs[topic := {}];
      }
      subs := subs[topic := subs[topic] + {ch}];
    }

    method Cancel(topic: string, ch: nat)
      requires Valid()
      modifies this`subs
      ensures Valid()
      ensures forall t :: Topic(t) == if t == topic then old(Topic(t)) - {ch} else old(Topic(t))
    {
      if topic in subs {
        subs := subs[topic := subs[topic] - {ch}];
        if subs[topic] == {} {
          subs := subs - {topic};
        }
      }
    }
  }
}
