/** The in-memory conversation log: a dictionary from user id to that user's
    list of entries (conversation_history), with save_history,
    get_all_history and delete_all_history. */
module History {

  /** One exchange: when it happened (whole seconds), what the user sent and
      what the bot answered. */
  datatype Entry = Entry(timestamp: nat, user: string, bot: string)

  /** A copied entry tagged with the user it belongs to, as listed. */
  datatype Record = Record(userId: string, entry: Entry)

  /** The entries stored for uid, or none when uid has no list. */
  function Lookup(log: map<string, seq<Entry>>, uid: string): seq<Entry> {
    if uid in log then log[uid] else []
  }

  /** Each entry of es, tagged with uid, in order. */
  function Tagged(uid: string, es: seq<Entry>): (rs: seq<Record>)
    ensures |rs| == |es|
    ensures forall r :: r in rs ==> r.userId == uid
  {
    if es == [] then [] else Tagged(uid, es[..|es| - 1]) + [Record(uid, es[|es| - 1])]
  }

  /** The listing: for each user in key order, that user's tagged entries.
      Every record is tagged with one of the users listed. */
  function Flatten(users: seq<string>, log: map<string, seq<Entry>>): (rs: seq<Record>)
    ensures forall r :: r in rs ==> r.userId in users
  {
    if users == [] then []
    else Flatten(users[..|users| - 1], log) + Tagged(users[|users| - 1], Lookup(log, users[|users| - 1]))
  }

  /** Tagging keeps each entry in its place. */
  lemma {:induction false} TaggedAt(uid: string, es: seq<Entry>, k: int)
    requires 0 <= k < |es|
    ensures Tagged(uid, es)[k] == Record(uid, es[k])
    decreases |es|
  {
    if k < |es| - 1 {
      TaggedAt(uid, es[..|es| - 1], k);
    }
  }

  /** Tagging one more entry appends one record. */
  lemma TaggedSnoc(uid: string, es: seq<Entry>, j: int)
    requires 0 <= j < |es|
    ensures Tagged(uid, es[..j + 1]) == Tagged(uid, es[..j]) + [Record(uid, es[j])]
  {
    assert es[..j + 1][..j] == es[..j];
  }

  /** Listing one more user appends that user's tagged entries. */
  lemma FlattenSnoc(users: seq<string>, log: map<string, seq<Entry>>, i: int)
    requires 0 <= i < |users|
    ensures Flatten(users[..i + 1], log) == Flatten(users[..i], log) + Tagged(users[i], Lookup(log, users[i]))
  {
    assert users[..i + 1][..i] == users[..i];
  }

  /** The number of entries held for the given users. */
  function Total(users: seq<string>, log: map<string, seq<Entry>>): nat {
    if users == [] then 0
    else Total(users[..|users| - 1], log) + |Lookup(log, users[|users| - 1])|
  }

  /** The entries of the records tagged uid, in listing order. */
  function EntriesFor(rs: seq<Record>, uid: string): seq<Entry> {
    if rs == [] then []
    else EntriesFor(rs[..|rs| - 1], uid) + (if rs[|rs| - 1].userId == uid then [rs[|rs| - 1].entry] else [])
  }

  predicate Distinct(users: seq<string>) {
    forall i, j :: 0 <= i < j < |users| ==> users[i] != users[j]
  }

  /** The listing holds as many records as the store holds entries. */
  lemma {:induction false} FlattenLength(users: seq<string>, log: map<string, seq<Entry>>)
    ensures |Flatten(users, log)| == Total(users, log)
  {
    if users != [] {
      FlattenLength(users[..|users| - 1], log);
    }
  }

  lemma {:induction false} EntriesForAppend(a: seq<Record>, b: seq<Record>, uid: string)
    ensures EntriesFor(a + b, uid) == EntriesFor(a, uid) + EntriesFor(b, uid)
    decreases |b|
  {
    if b != [] {
      assert (a + b)[..|a + b| - 1] == a + b[..|b| - 1];
      EntriesForAppend(a, b[..|b| - 1], uid);
    } else {
      assert a + b == a;
    }
  }

  lemma {:induction false} EntriesForTagged(u: string, es: seq<Entry>, uid: string)
    ensures EntriesFor(Tagged(u, es), uid) == if u == uid then es else []
    decreases |es|
  {
    if es != [] {
      var rs := Tagged(u, es);
      assert rs[..|rs| - 1] == Tagged(u, es[..|es| - 1]);
      EntriesForTagged(u, es[..|es| - 1], uid);
      if u == uid {
        assert es[..|es| - 1] + [es[|es| - 1]] == es;
      }
    }
  }

  /** Per-user order is kept: picking one user's records out of the listing
      gives back exactly that user's entries in insertion order, and nothing
      for a user with no list. */
  lemma {:induction false} FlattenPerUser(users: seq<string>, log: map<string, seq<Entry>>, uid: string)
    requires Distinct(users)
    ensures EntriesFor(Flatten(users, log), uid) == if uid in users then Lookup(log, uid) else []
  {
    if users != [] {
      var init, last := users[..|users| - 1], users[|users| - 1];
      DistinctSplit(users);
      FlattenPerUser(init, log, uid);
      var head, tail := Flatten(init, log), Tagged(last, Lookup(log, last));
      assert Flatten(users, log) == head + tail;
      EntriesForAppend(head, tail, uid);
      EntriesForTagged(last, Lookup(log, last), uid);
      assert users == init + [last];
      if uid == last {
        assert EntriesFor(Flatten(users, log), uid) == [] + Lookup(log, uid);
      } else {
        assert EntriesFor(Flatten(users, log), uid) == EntriesFor(head, uid) + [];
        assert uid in users <==> uid in init;
      }
    }
  }

  /** Dropping the last key keeps the keys distinct, and the last key is
      not among the others. */
  lemma DistinctSplit(users: seq<string>)
    requires users != [] && Distinct(users)
    ensures Distinct(users[..|users| - 1])
    ensures users[|users| - 1] !in users[..|users| - 1]
  {
  }

  /** Every listed record belongs to a listed user and is one of that user's entries. */
  lemma {:induction false} FlattenMembers(users: seq<string>, log: map<string, seq<Entry>>, r: Record)
    requires r in Flatten(users, log)
    ensures r.userId in users && r.entry in Lookup(log, r.userId)
  {
    if users != [] {
      var init, last := users[..|users| - 1], users[|users| - 1];
      var rs := Tagged(last, Lookup(log, last));
      if r in Flatten(init, log) {
        FlattenMembers(init, log, r);
        assert r.userId in users;
      } else {
        assert r in rs;
        var k :| 0 <= k < |rs| && rs[k] == r;
        TaggedAt(last, Lookup(log, last), k);
      }
    }
  }

  /** conversation_history. `users` holds the keys in insertion order, which
      is the order a Python dict iterates them in. */
  class HistoryStore {
    var users: seq<string>
    var log: map<string, seq<Entry>>

    ghost predicate Valid()
      reads this
    {
      && (forall u :: u in log <==> u in users)
      && Distinct(users)
    }

    /** The module-level `conversation_history = {}`. */
    constructor ()
      ensures Valid() && users == [] && log == map[]
    {
      users := [];
      log := map[];
    }

    /** The entries stored for uid, or none. */
    function EntriesOf(uid: string): seq<Entry>
      reads this
    {
      Lookup(log, uid)
    }

    /** save_history: creates uid's list on first use, then appends one
        entry stamped `now` (int(time.time()) in the source) at its end;
        every other user's list is left as it was. */
    method Save(uid: string, userMsg: string, botMsg: string, now: nat)
      requires Valid()
      modifies this
      ensures Valid()
      ensures log == old(log)[uid := old(EntriesOf(uid)) + [Entry(now, userMsg, botMsg)]]
      ensures users == if uid in old(log) then old(users) else old(users) + [uid]
      ensures forall u :: u != uid ==> EntriesOf(u) == old(EntriesOf(u))
    {
      if uid !in log {
        log := log[uid := []];
        users := users + [uid];
      }
      log := log[uid := log[uid] + [Entry(now, userMsg, botMsg)]];
    }

    /** get_all_history: walks the users in key order and, for each, copies
        its entries in order, tagging each with the user id. The store is
        not changed. */
    method ListAll() returns (records: seq<Record>)
      requires Valid()
      ensures records == Flatten(users, log)
      ensures |records| == Total(users, log)
    {
      records := [];
      var i := 0;
      while i < |users|
        invariant 0 <= i <= |users|
        invariant records == Flatten(users[..i], log)
      {
        var uid := users[i];
        var history := log[uid];
        var j := 0;
        while j < |history|
          invariant 0 <= j <= |history|
          invariant records == Flatten(users[..i], log) + Tagged(uid, history[..j])
        {
          TaggedSnoc(uid, history, j);
          records := records + [Record(uid, history[j])];
          j := j + 1;
        }
        assert history[..j] == history;
        FlattenSnoc(users, log, i);
        i := i + 1;
      }
      assert users[..i] == users;
      FlattenLength(users, log);
    }

    /** delete_all_history: empties the dictionary. */
    method Clear()
      requires Valid()
      modifies this
      ensures Valid() && users == [] && log == map[]
    {
      users := [];
      log := map[];
    }
  }

  /** A client of the store: what a caller can conclude from the contracts
      alone about saving for two users, listing twice and clearing. */
  method TwoUsersScenario(a: string, b: string, now: nat)
    requires a != b
  {
    var store := new HistoryStore();
    store.Save(a, "hi", "pika", now);
    store.Save(b, "yo", "pika pika", now + 1);
    assert store.users == [a, b];
    assert store.EntriesOf(a) == [Entry(now, "hi", "pika")];
    assert store.EntriesOf(b) == [Entry(now + 1, "yo", "pika pika")];
    var first := store.ListAll();
    var second := store.ListAll();
    assert first == second;
    FlattenPerUser(store.users, store.log, a);
    FlattenPerUser(store.users, store.log, b);
    assert EntriesFor(first, a) == [Entry(now, "hi", "pika")];
    assert EntriesFor(first, b) == [Entry(now + 1, "yo", "pika pika")];
    store.Clear();
    var emptied := store.ListAll();
    assert emptied == [];
  }
}
