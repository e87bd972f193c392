/** The pure list updates the client applies to its message state:
    `prev.map(msg => msg.id === id ? {...msg, ...} : msg)` and
    `prev.filter(msg => msg.id !== id)` (App.tsx). */
module MessageList {
  import opened Types

  /** Some message of `ms` carries identifier `id`. */
  predicate HasId(ms: seq<Message>, id: string) {
    exists i :: 0 <= i < |ms| && ms[i].id == id
  }

  /** No identifier occurs twice in `ms`. */
  predicate UniqueIds(ms: seq<Message>) {
    forall i, j :: 0 <= i < j < |ms| ==> ms[i].id != ms[j].id
  }

  /** The two object spreads the client applies to the matched message:
      `{...msg, content: c}` and `{...msg, isStreaming: false}`. */
  datatype Update = SetContent(content: string) | StopStreaming

  /** Apply one spread to one message. Every field the spread does not name
      keeps its value; in particular the identifier never changes. */
  function Apply(u: Update, m: Message): (r: Message)
    ensures r.id == m.id && r.role == m.role && r.timestamp == m.timestamp
    ensures r.content == (if u.SetContent? then u.content else m.content)
    ensures r.isStreaming == (if u.StopStreaming? then Some(false) else m.isStreaming)
  {
    match u
    case SetContent(c) => m.(content := c)
    case StopStreaming => m.(isStreaming := Some(false))
  }

  /** `ms.map(msg => msg.id === id ? u(msg) : msg)`: same length, and at
      each position the matched message is updated and every other message
      is the one that was there. */
  function MapById(ms: seq<Message>, id: string, u: Update): (r: seq<Message>)
    ensures |r| == |ms|
    ensures forall i :: 0 <= i < |ms| ==> r[i].id == ms[i].id
    ensures forall i :: 0 <= i < |ms| && ms[i].id != id ==> r[i] == ms[i]
    ensures forall i :: 0 <= i < |ms| && ms[i].id == id ==> r[i] == Apply(u, ms[i])
  {
    if ms == [] then []
    else [if ms[0].id == id then Apply(u, ms[0]) else ms[0]] + MapById(ms[1..], id, u)
  }

  /** `ms.filter(msg => msg.id !== id)`: exactly the messages of `ms` with
      a different identifier remain, and none with this one. */
  function RemoveById(ms: seq<Message>, id: string): (r: seq<Message>)
    ensures |r| <= |ms|
    ensures forall m :: m in r <==> m in ms && m.id != id
    ensures !HasId(r, id)
  {
    if ms == [] then []
    else (if ms[0].id == id then [] else [ms[0]]) + RemoveById(ms[1..], id)
  }

  /** Appending a message with another identifier keeps `id` fresh. */
  lemma FreshAfterAppend(ms: seq<Message>, m: Message, id: string)
    requires !HasId(ms, id) && m.id != id
    ensures !HasId(ms + [m], id)
  {
    forall i | 0 <= i < |ms| + 1 ensures (ms + [m])[i].id != id {
      if i < |ms| { assert (ms + [m])[i] == ms[i]; }
    }
  }

  /** Appending a message whose identifier is fresh keeps identifiers unique. */
  lemma UniqueAfterAppend(ms: seq<Message>, m: Message)
    requires UniqueIds(ms) && !HasId(ms, m.id)
    ensures UniqueIds(ms + [m])
  {
    var r := ms + [m];
    forall i, j | 0 <= i < j < |r| ensures r[i].id != r[j].id {
      assert r[i] == ms[i];
      if j < |ms| { assert r[j] == ms[j]; }
    }
  }

  /** A map by an identifier no message carries changes nothing. */
  lemma MapByIdAbsent(ms: seq<Message>, id: string, u: Update)
    requires !HasId(ms, id)
    ensures MapById(ms, id, u) == ms
  {
    var r := MapById(ms, id, u);
    forall i | 0 <= i < |ms| ensures r[i] == ms[i] {
      assert ms[i].id != id;
    }
  }

  /** Map by identifier keeps the identifiers, so it keeps them unique. */
  lemma MapByIdUnique(ms: seq<Message>, id: string, u: Update)
    requires UniqueIds(ms)
    ensures UniqueIds(MapById(ms, id, u))
  {
  }

  /** When only the last message carries `id`, mapping by `id` updates that
      message and leaves all earlier ones as they were. This is how the
      placeholder appended last is written to by the stream. */
  lemma MapByIdLast(ms: seq<Message>, m: Message, u: Update)
    requires !HasId(ms, m.id)
    ensures MapById(ms + [m], m.id, u) == ms + [Apply(u, m)]
  {
    var r := MapById(ms + [m], m.id, u);
    forall i | 0 <= i < |ms| ensures r[i] == ms[i] {
      assert (ms + [m])[i] == ms[i];
      assert ms[i].id != m.id;
    }
    assert r[|ms|] == Apply(u, m);
  }

  /** Filtering distributes over concatenation: it keeps the order of what
      it does not remove. */
  lemma {:induction false} RemoveByIdAppend(a: seq<Message>, b: seq<Message>, id: string)
    ensures RemoveById(a + b, id) == RemoveById(a, id) + RemoveById(b, id)
  {
    if a == [] {
      assert a + b == b;
    } else {
      var head := if a[0].id == id then [] else [a[0]];
      assert (a + b)[0] == a[0];
      assert (a + b)[1..] == a[1..] + b;
      calc {
        RemoveById(a + b, id);
        head + RemoveById(a[1..] + b, id);
        { RemoveByIdAppend(a[1..], b, id); }
        head + (RemoveById(a[1..], id) + RemoveById(b, id));
        (head + RemoveById(a[1..], id)) + RemoveById(b, id);
      }
    }
  }

  /** Filtering by an identifier that no message carries changes nothing. */
  lemma {:induction false} RemoveByIdAbsent(ms: seq<Message>, id: string)
    requires !HasId(ms, id)
    ensures RemoveById(ms, id) == ms
  {
    if ms != [] {
      assert ms[0].id != id;
      assert !HasId(ms[1..], id) by {
        forall i | 0 <= i < |ms[1..]| ensures ms[1..][i].id != id {
          assert ms[1..][i] == ms[i + 1];
        }
      }
      RemoveByIdAbsent(ms[1..], id);
      assert ms == [ms[0]] + ms[1..];
    }
  }

  /** When only the last message carries `id`, filtering by `id` gives back
      exactly the earlier messages, in their order: the placeholder appended
      last is removed whatever it holds. */
  lemma RemoveByIdLast(ms: seq<Message>, m: Message)
    requires !HasId(ms, m.id)
    ensures RemoveById(ms + [m], m.id) == ms
  {
    RemoveByIdAppend(ms, [m], m.id);
    RemoveByIdAbsent(ms, m.id);
    assert RemoveById([m], m.id) == [] + RemoveById([], m.id);
  }

  /** Filtering never brings in an identifier that was not there. */
  lemma RemoveByIdKeepsFresh(ms: seq<Message>, id: string, other: string)
    requires !HasId(ms, other)
    ensures !HasId(RemoveById(ms, id), other)
  {
    var r := RemoveById(ms, id);
    forall j | 0 <= j < |r| ensures r[j].id != other {
      assert r[j] in ms;
    }
  }

  /** Putting a message with a fresh identifier in front keeps identifiers unique. */
  lemma UniqueAfterPrepend(m: Message, ms: seq<Message>)
    requires UniqueIds(ms) && !HasId(ms, m.id)
    ensures UniqueIds([m] + ms)
  {
    var r := [m] + ms;
    forall i, j | 0 <= i < j < |r| ensures r[i].id != r[j].id {
      assert r[j] == ms[j - 1];
      if i > 0 { assert r[i] == ms[i - 1]; }
    }
  }

  /** Once a message is filtered out, a later map by its identifier finds
      nothing to update: a chunk arriving after a failed turn changes nothing. */
  lemma MapAfterRemove(ms: seq<Message>, id: string, u: Update)
    ensures MapById(RemoveById(ms, id), id, u) == RemoveById(ms, id)
  {
    MapByIdAbsent(RemoveById(ms, id), id, u);
  }

  /** Filtering keeps identifiers unique. */
  lemma {:induction false} RemoveByIdUnique(ms: seq<Message>, id: string)
    requires UniqueIds(ms)
    ensures UniqueIds(RemoveById(ms, id))
  {
    if ms != [] {
      var tail := ms[1..];
      assert UniqueIds(tail) by {
        forall i, j | 0 <= i < j < |tail| ensures tail[i].id != tail[j].id {
          assert tail[i] == ms[i + 1] && tail[j] == ms[j + 1];
        }
      }
      RemoveByIdUnique(tail, id);
      if ms[0].id != id {
        assert !HasId(tail, ms[0].id) by {
          forall k | 0 <= k < |tail| ensures tail[k].id != ms[0].id {
            assert tail[k] == ms[k + 1];
          }
        }
        RemoveByIdKeepsFresh(tail, id, ms[0].id);
        UniqueAfterPrepend(ms[0], RemoveById(tail, id));
      }
    }
  }
}
