/** `ThrottledOutput`: passes the first three-byte message per (status,
    data1) key through and holds back later values for that key until the
    next flush, when only the latest held value of each key goes out. */
module ThrottledOutputs {

  /** The message a held value is sent as. */
  function HeldMessage(key: (int, int), value: int): seq<int>
  {
    [key.0, key.1, value]
  }

  /** The held values of `keys`, sent in that order. */
  function HeldMessagesIn(keys: seq<(int, int)>, unsent: map<(int, int), int>): (r: seq<seq<int>>)
    requires forall k :: k in keys ==> k in unsent
    ensures |r| == |keys|
  {
    if keys == [] then []
    else HeldMessagesIn(keys[..|keys| - 1], unsent) + [HeldMessage(keys[|keys| - 1], unsent[keys[|keys| - 1]])]
  }

  /** Sending one more key's held value appends its message. */
  lemma HeldMessagesSnoc(keys: seq<(int, int)>, key: (int, int), unsent: map<(int, int), int>)
    requires forall k :: k in keys ==> k in unsent
    requires key in unsent
    ensures HeldMessagesIn(keys + [key], unsent) == HeldMessagesIn(keys, unsent) + [HeldMessage(key, unsent[key])]
  {
    assert (keys + [key])[..|keys|] == keys;
  }

  /** `keys` lists every key of `unsent` exactly once. */
  ghost predicate Enumerates(keys: seq<(int, int)>, unsent: map<(int, int), int>)
  {
    (forall k :: k in keys <==> k in unsent)
    && forall i, j :: 0 <= i < j < |keys| ==> keys[i] != keys[j]
  }

  class ThrottledOutput {
    var unsentValues: map<(int, int), int>
    var sentKeys: set<(int, int)>
    /** Every message handed to the MIDI connection, in order. */
    ghost var sent: seq<seq<int>>

    /** A value is held back only for a key already sent since the last
        flush. */
    ghost predicate Valid()
      reads this
    {
      unsentValues.Keys <= sentKeys
    }

    constructor ()
      ensures Valid() && unsentValues == map[] && sentKeys == {} && sent == []
    {
      unsentValues := map[];
      sentKeys := {};
      sent := [];
    }

    /** `flush`: sends each held value once, in an unspecified order, and
        forgets every key. */
    method Flush()
      requires Valid()
      modifies this
      ensures Valid() && unsentValues == map[] && sentKeys == {}
      ensures exists order ::
                Enumerates(order, old(unsentValues))
                && sent == old(sent) + HeldMessagesIn(order, old(unsentValues))
    {
      var held := unsentValues;
      var remaining := held.Keys;
      ghost var order: seq<(int, int)> := [];
      while remaining != {}
        invariant remaining <= held.Keys
        invariant forall k :: k in order <==> k in held && k !in remaining
        invariant forall i, j :: 0 <= i < j < |order| ==> order[i] != order[j]
        invariant sent == old(sent) + HeldMessagesIn(order, held)
        decreases remaining
      {
        var key :| key in remaining;
        HeldMessagesSnoc(order, key, held);
        sent := sent + [HeldMessage(key, held[key])];
        order := order + [key];
        remaining := remaining - {key};
      }
      assert Enumerates(order, held);
      unsentValues := map[];
      sentKeys := {};
    }

    /** `send`: a three-byte message whose key was already sent since the
        last flush is held (replacing any held value); any other message
        goes straight out. */
    method Send(message: seq<int>)
      requires Valid()
      modifies this
      ensures Valid()
      ensures |message| != 3 ==>
        (sent == old(sent) + [message] && unsentValues == old(unsentValues) && sentKeys == old(sentKeys))
      ensures |message| == 3 && (message[0], message[1]) in old(sentKeys) ==>
        (sent == old(sent) && sentKeys == old(sentKeys)
         && unsentValues == old(unsentValues)[(message[0], message[1]) := message[2]])
      ensures |message| == 3 && (message[0], message[1]) !in old(sentKeys) ==>
        (sent == old(sent) + [message] && unsentValues == old(unsentValues)
         && sentKeys == old(sentKeys) + {(message[0], message[1])})
    {
      if |message| == 3 {
        var key := (message[0], message[1]);
        if key in sentKeys {
          unsentValues := unsentValues[key := message[2]];
        } else {
          sent := sent + [message];
          sentKeys := sentKeys + {key};
        }
      } else {
        sent := sent + [message];
      }
    }
  }
}
