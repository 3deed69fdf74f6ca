// The subscription table (src/runtime/router.rs): an indexed list of entries that stands
// for a set of (client, filter) pairs, and topic matching.
module Routing {
  import opened Bytes
  import opened Wrappers

  type Level = seq<byte>

  const SEPARATOR: byte := 0x2F  // '/'
  const HASH: Level := [0x23]    // "#"
  const PLUS: Level := [0x2B]    // "+"

  // str::split('/').
  function Levels(s: seq<byte>): (levels: seq<Level>)
    ensures levels != []
  {
    if s == [] then [[]]
    else
      var rest := Levels(s[1..]);
      if s[0] == SEPARATOR then [[]] + rest else [[s[0]] + rest[0]] + rest[1..]
  }

  function Joined(levels: seq<Level>): seq<byte>
    requires levels != []
  {
    if |levels| == 1 then levels[0] else levels[0] + [SEPARATOR] + Joined(levels[1..])
  }

  // Splitting loses nothing, and leaves no separator inside a level.
  lemma {:induction false} LevelsJoin(s: seq<byte>)
    ensures Joined(Levels(s)) == s
    ensures forall i :: 0 <= i < |Levels(s)| ==> SEPARATOR !in Levels(s)[i]
  {
    if s != [] {
      var rest := Levels(s[1..]);
      LevelsJoin(s[1..]);
      if s[0] == SEPARATOR {
        assert Levels(s)[1..] == rest;
        assert s == [] + [SEPARATOR] + s[1..];
      } else {
        assert Levels(s)[1..] == rest[1..];
        if |rest| > 1 {
          assert Joined(Levels(s)) == [s[0]] + (rest[0] + [SEPARATOR] + Joined(rest[1..]));
        }
      }
    }
  }

  // Filter against topic, level by level (MQTT 3.1.1, section 4.7.1).
  predicate Matches(filter: seq<Level>, topic: seq<Level>) {
    if filter == [] then topic == []
    else if filter[0] == HASH then |filter| == 1
    else topic != [] && (filter[0] == PLUS || filter[0] == topic[0]) && Matches(filter[1..], topic[1..])
  }

  predicate TopicMatches(filter: seq<byte>, topic: seq<byte>) {
    Matches(Levels(filter), Levels(topic))
  }

  // The first n levels fit: none is "#", and each is "+" or the topic's own.
  ghost predicate Fits(filter: seq<Level>, topic: seq<Level>, n: nat) {
    n <= |filter| && n <= |topic|
    && forall i :: 0 <= i < n ==> filter[i] != HASH && (filter[i] == PLUS || filter[i] == topic[i])
  }

  // All levels fit one to one; or all but a final "#", which stands for any number of
  // further levels, none included, so that it matches its parent level too.
  ghost predicate FitsWhole(filter: seq<Level>, topic: seq<Level>) {
    || (|filter| == |topic| && Fits(filter, topic, |filter|))
    || (filter != [] && filter[|filter| - 1] == HASH && Fits(filter, topic, |filter| - 1))
  }

  lemma {:induction false} MatchesIffFits(filter: seq<Level>, topic: seq<Level>)
    ensures Matches(filter, topic) <==> FitsWhole(filter, topic)
    decreases filter
  {
    if filter != [] && filter[0] != HASH && topic != [] {
      var f, t := filter[1..], topic[1..];
      MatchesIffFits(f, t);
      assert forall i :: 1 <= i < |filter| ==> filter[i] == f[i - 1];
      assert forall i :: 1 <= i < |topic| ==> topic[i] == t[i - 1];
      assert forall n :: 0 <= n <= |f| ==>
          (Fits(filter, topic, n + 1) <==> Fits(f, t, n) && (filter[0] == PLUS || filter[0] == topic[0])) by {
        forall n | 0 <= n <= |f|
          ensures Fits(filter, topic, n + 1) <==> Fits(f, t, n) && (filter[0] == PLUS || filter[0] == topic[0])
        {
          FitsShift(filter, topic, n);
        }
      }
      if f != [] {
        assert filter[|filter| - 1] == f[|f| - 1];
        var one := filter[0] == PLUS || filter[0] == topic[0];
        assert Fits(filter, topic, (|f| - 1) + 1) <==> Fits(f, t, |f| - 1) && one;
      }
      assert Fits(filter, topic, |f| + 1) <==> Fits(f, t, |f|) && (filter[0] == PLUS || filter[0] == topic[0]);
    }
  }

  lemma {:induction false} FitsShift(filter: seq<Level>, topic: seq<Level>, n: nat)
    requires filter != [] && topic != [] && filter[0] != HASH && n < |filter|
    ensures Fits(filter, topic, n + 1)
       <==> Fits(filter[1..], topic[1..], n) && (filter[0] == PLUS || filter[0] == topic[0])
  {
    if Fits(filter[1..], topic[1..], n) && (filter[0] == PLUS || filter[0] == topic[0]) {
      forall i | 0 <= i < n + 1
        ensures filter[i] != HASH && (filter[i] == PLUS || filter[i] == topic[i])
      {
        if i > 0 {
          assert filter[i] == filter[1..][i - 1] && topic[i] == topic[1..][i - 1];
        }
      }
    }
    if Fits(filter, topic, n + 1) {
      forall i | 0 <= i < n
        ensures filter[1..][i] != HASH && (filter[1..][i] == PLUS || filter[1..][i] == topic[1..][i])
      {
        assert filter[1..][i] == filter[i + 1] && topic[1..][i] == topic[i + 1];
      }
    }
  }

  method MatchTopic(filter: Text, topic: Text) returns (matched: bool)
    ensures matched == TopicMatches(filter, topic)
  {
    var filterLevels := Levels(filter);
    var topicLevels := Levels(topic);
    var i := 0;
    while i < |filterLevels|
      invariant 0 <= i <= |filterLevels| && i <= |topicLevels|
      invariant Matches(filterLevels, topicLevels) == Matches(filterLevels[i..], topicLevels[i..])
    {
      var f := filterLevels[i];
      if f == HASH {
        return i == |filterLevels| - 1;
      }
      if i >= |topicLevels| {
        return false;
      }
      var t := topicLevels[i];
      assert filterLevels[i..][1..] == filterLevels[i + 1..] && topicLevels[i..][1..] == topicLevels[i + 1..];
      if f != PLUS && f != t {
        return false;
      }
      i := i + 1;
    }
    return i == |topicLevels|;
  }

  // ---------- the table on values ----------

  datatype Entry = Entry(filter: Text, clients: seq<nat>)

  function EntryPairs(e: Entry): set<(nat, Text)> {
    set c | c in e.clients :: (c, e.filter)
  }

  // The (client, filter) pairs the table stands for.
  function Pairs(entries: seq<Entry>): set<(nat, Text)> {
    if entries == [] then {} else EntryPairs(entries[0]) + Pairs(entries[1..])
  }

  ghost predicate Distinct<T>(s: seq<T>) {
    forall i, j :: 0 <= i < j < |s| ==> s[i] != s[j]
  }

  // Filters are unique; every entry has clients, and each once.
  ghost predicate ValidEntries(entries: seq<Entry>) {
    && (forall i, j :: 0 <= i < j < |entries| ==> entries[i].filter != entries[j].filter)
    && (forall i :: 0 <= i < |entries| ==> entries[i].clients != [] && Distinct(entries[i].clients))
  }

  function WithClient(clients: seq<nat>, client: nat): seq<nat> {
    if client in clients then clients else clients + [client]
  }

  function Added(entries: seq<Entry>, client: nat, filter: Text): seq<Entry> {
    if entries == [] then [Entry(filter, [client])]
    else if entries[0].filter == filter then
      [entries[0].(clients := WithClient(entries[0].clients, client))] + entries[1..]
    else [entries[0]] + Added(entries[1..], client, filter)
  }

  function Without(clients: seq<nat>, client: nat): seq<nat> {
    if clients == [] then []
    else (if clients[0] == client then [] else [clients[0]]) + Without(clients[1..], client)
  }

  // The entry without the client, or nothing if that leaves it empty.
  function Pruned(e: Entry, client: nat, filter: Text): seq<Entry> {
    var e := if e.filter == filter then e.(clients := Without(e.clients, client)) else e;
    if e.clients == [] then [] else [e]
  }

  function Removed(entries: seq<Entry>, client: nat, filter: Text): seq<Entry> {
    if entries == [] then [] else Pruned(entries[0], client, filter) + Removed(entries[1..], client, filter)
  }

  function AddNew(known: seq<nat>, clients: seq<nat>): seq<nat>
    decreases clients
  {
    if clients == [] then known else AddNew(WithClient(known, clients[0]), clients[1..])
  }

  function Collect(known: seq<nat>, entries: seq<Entry>, topic: Text): seq<nat>
    decreases entries
  {
    if entries == [] then known
    else
      Collect(if TopicMatches(entries[0].filter, topic) then AddNew(known, entries[0].clients) else known,
              entries[1..], topic)
  }

  // The clients to deliver a publish on `topic` to, in order.
  function Matching(entries: seq<Entry>, topic: Text): seq<nat> {
    Collect([], entries, topic)
  }

  // ---------- the table refines a set of pairs ----------

  ghost predicate HasFilter(entries: seq<Entry>, filter: Text) {
    exists i :: 0 <= i < |entries| && entries[i].filter == filter
  }

  ghost predicate ValidEntry(e: Entry) {
    e.clients != [] && Distinct(e.clients)
  }

  lemma {:induction false} ValidCons(e: Entry, rest: seq<Entry>)
    ensures ValidEntries([e] + rest) <==> ValidEntry(e) && ValidEntries(rest) && !HasFilter(rest, e.filter)
  {
    var entries := [e] + rest;
    assert forall i :: 0 <= i < |rest| ==> rest[i] == entries[i + 1];
    assert entries[0] == e;
    if ValidEntries(entries) {
      assert !HasFilter(rest, e.filter);
    }
  }

  lemma {:induction false} AddedFilters(entries: seq<Entry>, client: nat, filter: Text, f: Text)
    ensures HasFilter(Added(entries, client, filter), f) <==> HasFilter(entries, f) || f == filter
  {
    if entries == [] {
      assert Added(entries, client, filter)[0].filter == filter;
    } else {
      var rest, added := entries[1..], Added(entries, client, filter);
      assert HasFilter(entries, f) <==> entries[0].filter == f || HasFilter(rest, f) by {
        HasFilterCons(entries, f);
      }
      HasFilterCons(added, f);
      if entries[0].filter != filter {
        AddedFilters(rest, client, filter, f);
        assert added[1..] == Added(rest, client, filter);
      } else {
        assert added[1..] == rest;
      }
    }
  }

  lemma {:induction false} HasFilterCons(entries: seq<Entry>, f: Text)
    requires entries != []
    ensures HasFilter(entries, f) <==> entries[0].filter == f || HasFilter(entries[1..], f)
  {
    assert forall i :: 1 <= i < |entries| ==> entries[i] == entries[1..][i - 1];
    if HasFilter(entries[1..], f) {
      var i :| 0 <= i < |entries[1..]| && entries[1..][i].filter == f;
      assert entries[i + 1].filter == f;
    }
  }

  // Adding a subscription is adding the pair.
  lemma {:induction false} AddedIsUnion(entries: seq<Entry>, client: nat, filter: Text)
    requires ValidEntries(entries)
    ensures ValidEntries(Added(entries, client, filter))
    ensures Pairs(Added(entries, client, filter)) == Pairs(entries) + {(client, filter)}
  {
    if entries != [] {
      var e, rest := entries[0], entries[1..];
      assert entries == [e] + rest;
      ValidCons(e, rest);
      if e.filter == filter {
        var e' := e.(clients := WithClient(e.clients, client));
        ValidCons(e', rest);
        assert EntryPairs(e') == EntryPairs(e) + {(client, filter)};
        assert ([e'] + rest)[1..] == rest;
      } else {
        var rest' := Added(rest, client, filter);
        AddedIsUnion(rest, client, filter);
        AddedFilters(rest, client, filter, e.filter);
        ValidCons(e, rest');
        assert ([e] + rest')[1..] == rest';
      }
    } else {
      var added := [Entry(filter, [client])];
      assert added[1..] == [] && Pairs([]) == {};
      assert EntryPairs(added[0]) == {(client, filter)};
    }
  }

  lemma {:induction false} WithoutClient(clients: seq<nat>, client: nat)
    ensures forall c :: c in Without(clients, client) <==> c in clients && c != client
    ensures Distinct(clients) ==> Distinct(Without(clients, client))
  {
    if clients != [] {
      var rest := Without(clients[1..], client);
      WithoutClient(clients[1..], client);
      assert forall c :: c in clients <==> c == clients[0] || c in clients[1..];
      if Distinct(clients) {
        assert clients[0] !in clients[1..];
        assert Distinct(clients[1..]);
      }
    }
  }

  lemma {:induction false} RemovedFilters(entries: seq<Entry>, client: nat, filter: Text, f: Text)
    requires !HasFilter(entries, f)
    ensures !HasFilter(Removed(entries, client, filter), f)
  {
    if entries != [] {
      HasFilterCons(entries, f);
      RemovedFilters(entries[1..], client, filter, f);
      var kept := Pruned(entries[0], client, filter);
      var rest' := Removed(entries[1..], client, filter);
      if kept == [] {
        assert kept + rest' == rest';
      } else {
        HasFilterCons(kept + rest', f);
        assert (kept + rest')[1..] == rest';
      }
    }
  }

  lemma {:induction false} PruneStep(entries: seq<Entry>, i: nat, client: nat, filter: Text, kept: seq<Entry>)
    requires i < |entries|
    ensures kept + Removed(entries[i..], client, filter)
         == (kept + Pruned(entries[i], client, filter)) + Removed(entries[i + 1..], client, filter)
    ensures kept + [] == kept
  {
    assert entries[i..][0] == entries[i] && entries[i..][1..] == entries[i + 1..];
  }

  lemma {:induction false} PrunedPairs(e: Entry, client: nat, filter: Text)
    ensures Pairs(Pruned(e, client, filter)) == EntryPairs(e) - {(client, filter)}
    ensures |Pruned(e, client, filter)| <= 1
    ensures ValidEntry(e) ==> forall x :: x in Pruned(e, client, filter) ==> ValidEntry(x) && x.filter == e.filter
  {
    WithoutClient(e.clients, client);
    var kept := Pruned(e, client, filter);
    assert Pairs([]) == {};
    if kept != [] {
      assert kept[1..] == [];
      assert EntryPairs(kept[0]) == EntryPairs(e) - {(client, filter)};
    } else {
      var e' := if e.filter == filter then e.(clients := Without(e.clients, client)) else e;
      assert e'.clients == [];
      assert forall c :: c in e.clients ==> (e.filter == filter && c == client) || c in e'.clients;
    }
  }

  // Removing a subscription is removing the pair; entries left without clients go.
  lemma {:induction false} RemovedIsDifference(entries: seq<Entry>, client: nat, filter: Text)
    requires ValidEntries(entries)
    ensures ValidEntries(Removed(entries, client, filter))
    ensures Pairs(Removed(entries, client, filter)) == Pairs(entries) - {(client, filter)}
  {
    if entries != [] {
      var e, rest := entries[0], entries[1..];
      var rest' := Removed(rest, client, filter);
      assert entries == [e] + rest;
      ValidCons(e, rest);
      RemovedIsDifference(rest, client, filter);
      RemovedFilters(rest, client, filter, e.filter);
      PrunedPairs(e, client, filter);
      var kept := Pruned(e, client, filter);
      PairsPrepend(kept, rest');
      if kept == [] {
        assert kept + rest' == rest';
      } else {
        assert kept == [kept[0]] && kept[0] in kept;
        ValidCons(kept[0], rest');
      }
    }
  }

  lemma {:induction false} PairsPrepend(first: seq<Entry>, rest: seq<Entry>)
    requires |first| <= 1
    ensures Pairs(first + rest) == Pairs(first) + Pairs(rest)
  {
    if first == [] {
      assert first + rest == rest;
    } else {
      assert (first + rest)[1..] == rest && first[1..] == [];
      assert Pairs(first) == EntryPairs(first[0]) + Pairs([]);
    }
  }

  lemma {:induction false} AddNewAdds(known: seq<nat>, clients: seq<nat>)
    requires Distinct(known)
    ensures Distinct(AddNew(known, clients))
    ensures forall c :: c in AddNew(known, clients) <==> c in known || c in clients
    decreases clients
  {
    if clients != [] {
      AddNewAdds(WithClient(known, clients[0]), clients[1..]);
      assert forall c :: c in clients <==> c == clients[0] || c in clients[1..];
    }
  }

  lemma {:induction false} CollectCollects(known: seq<nat>, entries: seq<Entry>, topic: Text)
    requires Distinct(known)
    ensures Distinct(Collect(known, entries, topic))
    ensures forall c :: c in Collect(known, entries, topic) <==>
              c in known || exists e :: e in entries && c in e.clients && TopicMatches(e.filter, topic)
    decreases entries
  {
    if entries != [] {
      var e, rest := entries[0], entries[1..];
      AddNewAdds(known, e.clients);
      var known' := if TopicMatches(e.filter, topic) then AddNew(known, e.clients) else known;
      CollectCollects(known', rest, topic);
      forall c
        ensures c in Collect(known, entries, topic) <==>
          c in known || exists x :: x in entries && c in x.clients && TopicMatches(x.filter, topic)
      {
        if exists x :: x in entries && c in x.clients && TopicMatches(x.filter, topic) {
          var x :| x in entries && c in x.clients && TopicMatches(x.filter, topic);
          assert x == e || x in rest;
        }
        if exists x :: x in rest && c in x.clients && TopicMatches(x.filter, topic) {
          var x :| x in rest && c in x.clients && TopicMatches(x.filter, topic);
          assert x in entries;
        }
        assert e in entries;
      }
    }
  }

  lemma {:induction false} PairsMember(entries: seq<Entry>, c: nat, f: Text)
    ensures (c, f) in Pairs(entries) <==> exists e :: e in entries && c in e.clients && e.filter == f
  {
    if entries != [] {
      PairsMember(entries[1..], c, f);
      assert forall e :: e in entries <==> e == entries[0] || e in entries[1..];
    }
  }

  // A client is listed once, and exactly when one of its filters matches.
  lemma {:induction false} MatchingExact(entries: seq<Entry>, topic: Text)
    ensures Distinct(Matching(entries, topic))
    ensures forall c :: c in Matching(entries, topic) <==>
              exists f: Text :: (c, f) in Pairs(entries) && TopicMatches(f, topic)
  {
    CollectCollects([], entries, topic);
    forall c
      ensures c in Matching(entries, topic) <==> exists f: Text :: (c, f) in Pairs(entries) && TopicMatches(f, topic)
    {
      if exists f: Text :: (c, f) in Pairs(entries) && TopicMatches(f, topic) {
        var f: Text :| (c, f) in Pairs(entries) && TopicMatches(f, topic);
        PairsMember(entries, c, f);
      }
      if exists e :: e in entries && c in e.clients && TopicMatches(e.filter, topic) {
        var e :| e in entries && c in e.clients && TopicMatches(e.filter, topic);
        PairsMember(entries, c, e.filter);
      }
    }
  }

  // Where the addition happens: at the filter's entry, or at the end.
  lemma {:induction false} AddedAt(entries: seq<Entry>, client: nat, filter: Text, i: nat)
    requires i <= |entries| && forall k :: 0 <= k < i ==> entries[k].filter != filter
    requires i < |entries| ==> entries[i].filter == filter
    ensures Added(entries, client, filter)
         == if i < |entries| then entries[i := entries[i].(clients := WithClient(entries[i].clients, client))]
            else entries + [Entry(filter, [client])]
    decreases entries
  {
    if entries != [] {
      if i > 0 {
        AddedAt(entries[1..], client, filter, i - 1);
      }
    }
  }

  // ---------- the table in place ----------

  // ---------- characters and order ----------

  // A filter matches a topic exactly when its levels fit the topic's, "+" and "#" being the
  // wildcards and "/" the separator.
  lemma {:induction false} TopicMatchesIff(filter: seq<byte>, topic: seq<byte>)
    ensures TopicMatches(filter, topic) <==> FitsWhole(Levels(filter), Levels(topic))
  {
    MatchesIffFits(Levels(filter), Levels(topic));
  }

  lemma {:induction false} Characters()
    ensures SEPARATOR == '/' as int && PLUS == ['+' as int] && HASH == ['#' as int]
  {
  }

  // Where an element comes first.
  function FirstAt(s: seq<nat>, c: nat): (i: nat)
    requires c in s
    ensures i < |s| && s[i] == c && c !in s[..i]
  {
    if s[0] == c then 0 else 1 + FirstAt(s[1..], c)
  }

  // The clients of all entries that match, entry by entry, with repetitions.
  function Matched(entries: seq<Entry>, topic: Text): seq<nat> {
    if entries == [] then []
    else (if TopicMatches(entries[0].filter, topic) then entries[0].clients else []) + Matched(entries[1..], topic)
  }

  lemma {:induction false} AddNewAppend(known: seq<nat>, a: seq<nat>, b: seq<nat>)
    ensures AddNew(known, a + b) == AddNew(AddNew(known, a), b)
    decreases a
  {
    if a == [] {
      assert a + b == b;
    } else {
      assert (a + b)[0] == a[0] && (a + b)[1..] == a[1..] + b;
      AddNewAppend(WithClient(known, a[0]), a[1..], b);
    }
  }

  lemma {:induction false} CollectFlat(known: seq<nat>, entries: seq<Entry>, topic: Text)
    ensures Collect(known, entries, topic) == AddNew(known, Matched(entries, topic))
    decreases entries
  {
    if entries != [] {
      var first := if TopicMatches(entries[0].filter, topic) then entries[0].clients else [];
      CollectFlat(AddNew(known, first), entries[1..], topic);
      AddNewAppend(known, first, Matched(entries[1..], topic));
      assert AddNew(known, []) == known;
    }
  }

  // Elements in the order of their first occurrence.
  ghost predicate InFirstOrder(list: seq<nat>, s: seq<nat>) {
    && (forall c :: c in list <==> c in s)
    && forall i, j :: 0 <= i < j < |list| ==> FirstAt(s, list[i]) < FirstAt(s, list[j])
  }

  lemma {:induction false} FirstAtPrefix(s: seq<nat>, c: nat, last: nat)
    requires c in s
    ensures FirstAt(s + [last], c) == FirstAt(s, c)
  {
    assert (s + [last])[0] == s[0] && (s + [last])[1..] == s[1..] + [last];
    if s[0] != c {
      FirstAtPrefix(s[1..], c, last);
    }
  }

  lemma {:induction false} NewInFirstOrder(s: seq<nat>)
    ensures InFirstOrder(AddNew([], s), s)
    decreases |s|
  {
    if s != [] {
      var front, last := s[..|s| - 1], s[|s| - 1];
      assert s == front + [last];
      NewInFirstOrder(front);
      AddNewAppend([], front, [last]);
      var list := AddNew([], front);
      assert AddNew(list, [last]) == AddNew(WithClient(list, last), []);
      forall c | c in front
        ensures FirstAt(s, c) == FirstAt(front, c)
      {
        FirstAtPrefix(front, c, last);
      }
    }
  }

  // Deliveries go to clients in the order in which the matching entries first name them.
  lemma {:induction false} MatchingInOrder(entries: seq<Entry>, topic: Text)
    ensures InFirstOrder(Matching(entries, topic), Matched(entries, topic))
  {
    CollectFlat([], entries, topic);
    NewInFirstOrder(Matched(entries, topic));
  }

  // The entry with the client at the end of its list, unless it is in it.
  predicate Extended(before: Entry, after: Entry, client: nat) {
    after.filter == before.filter
    && after.clients == if client in before.clients then before.clients else before.clients + [client]
  }

  // Entry k names the filter and is extended; the others are as before.
  ghost predicate ExtendedAt(entries: seq<Entry>, after: seq<Entry>, k: nat, client: nat, filter: Text) {
    && |after| == |entries| && k < |entries| && entries[k].filter == filter
    && Extended(entries[k], after[k], client)
    && forall i :: 0 <= i < |entries| && i != k ==> after[i] == entries[i]
  }

  // Adding touches the filter's entry only, where the client comes last; a new filter comes
  // last.
  lemma {:induction false} AddedInPlace(entries: seq<Entry>, client: nat, filter: Text)
    ensures HasFilter(entries, filter) ==>
              exists k: nat :: ExtendedAt(entries, Added(entries, client, filter), k, client, filter)
    ensures !HasFilter(entries, filter) ==>
              Added(entries, client, filter) == entries + [Entry(filter, [client])]
  {
    if HasFilter(entries, filter) {
      var k := ExtendedWhere(entries, client, filter);
    } else {
      AddedLast(entries, client, filter);
    }
  }

  lemma {:induction false} ExtendedWhere(entries: seq<Entry>, client: nat, filter: Text) returns (k: nat)
    requires HasFilter(entries, filter)
    ensures ExtendedAt(entries, Added(entries, client, filter), k, client, filter)
  {
    var rest := entries[1..];
    if entries[0].filter == filter {
      k := 0;
    } else {
      HasFilterCons(entries, filter);
      var j := ExtendedWhere(rest, client, filter);
      k := j + 1;
      assert rest[j] == entries[k];
      assert forall i :: 1 <= i < |entries| ==> rest[i - 1] == entries[i];
    }
  }

  lemma {:induction false} AddedLast(entries: seq<Entry>, client: nat, filter: Text)
    requires !HasFilter(entries, filter)
    ensures Added(entries, client, filter) == entries + [Entry(filter, [client])]
  {
    if entries != [] {
      HasFilterCons(entries, filter);
      AddedLast(entries[1..], client, filter);
    }
  }

  // Removing works entry by entry, and client by client, and keeps the order of what stays.
  lemma {:induction false} RemovedInPlace(a: seq<Entry>, b: seq<Entry>, client: nat, filter: Text)
    ensures Removed(a + b, client, filter) == Removed(a, client, filter) + Removed(b, client, filter)
    decreases a
  {
    if a == [] {
      assert a + b == b;
    } else {
      assert (a + b)[0] == a[0] && (a + b)[1..] == a[1..] + b;
      RemovedInPlace(a[1..], b, client, filter);
    }
  }

  lemma {:induction false} RemovedFromOne(e: Entry, client: nat, filter: Text)
    ensures e.filter != filter && e.clients != [] ==> Removed([e], client, filter) == [e]
    ensures e.filter == filter && (forall c :: c in e.clients ==> c == client) ==> Removed([e], client, filter) == []
    ensures e.filter == filter && (exists c :: c in e.clients && c != client) ==>
              Removed([e], client, filter) == [e.(clients := Without(e.clients, client))]
  {
    WithoutClient(e.clients, client);
    assert [e][1..] == [];
    var left := Without(e.clients, client);
    if left != [] {
      assert left[0] in left;
    }
  }

  lemma {:induction false} WithoutInPlace(a: seq<nat>, b: seq<nat>, client: nat)
    ensures Without(a + b, client) == Without(a, client) + Without(b, client)
    ensures |a| == 1 ==> Without(a, client) == if a[0] == client then [] else a
    decreases a
  {
    if a == [] {
      assert a + b == b;
    } else {
      assert (a + b)[0] == a[0] && (a + b)[1..] == a[1..] + b;
      WithoutInPlace(a[1..], b, client);
    }
  }

  class Router {
    var entries: seq<Entry>

    ghost predicate Valid()
      reads this
    {
      ValidEntries(entries)
    }

    constructor ()
      ensures Valid() && entries == []
    {
      entries := [];
    }

    method FindFilter(filter: Text) returns (i: nat)
      ensures i <= |entries| && forall k :: 0 <= k < i ==> entries[k].filter != filter
      ensures i < |entries| ==> entries[i].filter == filter
    {
      i := 0;
      while i < |entries| && entries[i].filter != filter
        invariant i <= |entries| && forall k :: 0 <= k < i ==> entries[k].filter != filter
      {
        i := i + 1;
      }
    }

    method AddSubscription(client: nat, filter: Text)
      requires Valid()
      modifies this
      ensures Valid()
      ensures entries == Added(old(entries), client, filter)
      ensures Pairs(entries) == Pairs(old(entries)) + {(client, filter)}
    {
      AddedIsUnion(entries, client, filter);
      var i := FindFilter(filter);
      AddedAt(entries, client, filter, i);
      if i < |entries| {
        var entry := entries[i];
        if client !in entry.clients {
          entries := entries[i := entry.(clients := entry.clients + [client])];
        }
      } else {
        entries := entries + [Entry(filter, [client])];
      }
    }

    method RemoveSubscription(client: nat, filter: Text)
      requires Valid()
      modifies this
      ensures Valid()
      ensures entries == Removed(old(entries), client, filter)
      ensures Pairs(entries) == Pairs(old(entries)) - {(client, filter)}
    {
      RemovedIsDifference(entries, client, filter);
      entries := PruneEntries(entries, client, filter);
    }

    // The client leaves the filter's entry, then empty entries go.
    static method PruneEntries(entries: seq<Entry>, client: nat, filter: Text) returns (kept: seq<Entry>)
      ensures kept == Removed(entries, client, filter)
    {
      kept := [];
      for i := 0 to |entries|
        invariant Removed(entries, client, filter) == kept + Removed(entries[i..], client, filter)
      {
        PruneStep(entries, i, client, filter, kept);
        var entry := entries[i];
        if entry.filter == filter {
          var clients := Retain(entry.clients, client);
          entry := entry.(clients := clients);
        }
        kept := if entry.clients != [] then kept + [entry] else kept;
      }
    }

    static method Retain(clients: seq<nat>, client: nat) returns (kept: seq<nat>)
      ensures kept == Without(clients, client)
    {
      kept := [];
      for i := 0 to |clients|
        invariant Without(clients, client) == kept + Without(clients[i..], client)
      {
        assert clients[i..][1..] == clients[i + 1..];
        if clients[i] != client {
          kept := kept + [clients[i]];
        }
      }
    }

    method MatchingClients(topic: Text) returns (clients: seq<nat>)
      requires Valid()
      ensures clients == Matching(entries, topic)
      ensures Distinct(clients)
      ensures forall c :: c in clients <==> exists f: Text :: (c, f) in Pairs(entries) && TopicMatches(f, topic)
    {
      MatchingExact(entries, topic);
      clients := [];
      for i := 0 to |entries|
        invariant Matching(entries, topic) == Collect(clients, entries[i..], topic)
      {
        assert entries[i..][1..] == entries[i + 1..];
        var matched := MatchTopic(entries[i].filter, topic);
        if matched {
          ghost var known := clients;
          var ids := entries[i].clients;
          for j := 0 to |ids|
            invariant AddNew(known, ids) == AddNew(clients, ids[j..])
          {
            assert ids[j..][1..] == ids[j + 1..];
            if ids[j] !in clients {
              clients := clients + [ids[j]];
            }
          }
        }
      }
    }
  }
}
