/** Client commands as text: how the request handlers print them and how a leader takes them apart. */
module Commands {
  import opened Types

  // ----- splitting -----

  function IndexOf(s: string, c: char): (i: nat)
    ensures i <= |s|
    ensures c !in s[..i]
    ensures i < |s| ==> s[i] == c
  {
    if s == [] || s[0] == c then 0
    else
      var i := IndexOf(s[1..], c);
      assert s[..i + 1] == [s[0]] + s[1..][..i];
      i + 1
  }

  /** Splits at the first `n - 1` occurrences of `c`; the last part is whatever is left. */
  function SplitN(s: string, c: char, n: nat): (parts: seq<string>)
    requires n > 0
    ensures 0 < |parts| <= n
    decreases n
  {
    var i := IndexOf(s, c);
    if n == 1 || i == |s| then [s] else [s[..i]] + SplitN(s[i + 1..], c, n - 1)
  }

  /** The log entry that a leader of `term` creates for a command. */
  function EntryOf(term: nat, command: string): Entry {
    var parts := SplitN(command, ':', 3);
    Entry(term, parts[0],
          if |parts| >= 2 then parts[1] else "",
          if |parts| >= 3 then Text(parts[2]) else Nil,
          NoChange)
  }

  // ----- printing -----

  function SetCommand(key: string, value: string): string {
    "SET:" + key + ":" + value
  }

  function DeleteCommand(key: string): string {
    "DELETE:" + key
  }

  const CLEAN_COMMAND := "CLEAN"

  // ----- splitting undoes joining -----

  function Join(parts: seq<string>, c: char): string {
    if parts == [] then ""
    else if |parts| == 1 then parts[0]
    else parts[0] + [c] + Join(parts[1..], c)
  }

  lemma JoinFirst(first: string, rest: seq<string>, c: char)
    requires rest != []
    ensures Join([first] + rest, c) == first + [c] + Join(rest, c)
  {
    assert ([first] + rest)[1..] == rest;
  }

  /** Joining the parts gives back the string. */
  lemma {:induction false} SplitNJoins(s: string, c: char, n: nat)
    requires n > 0
    ensures Join(SplitN(s, c, n), c) == s
    decreases n
  {
    var i := IndexOf(s, c);
    if n == 1 || i == |s| {
    } else {
      SplitNJoins(s[i + 1..], c, n - 1);
      JoinFirst(s[..i], SplitN(s[i + 1..], c, n - 1), c);
      assert s == s[..i] + [c] + s[i + 1..];
    }
  }

  /** No part but the last contains the separator, and not the last either when there could have been more parts. */
  lemma {:induction false} PartsAreWhole(s: string, c: char, n: nat, k: nat)
    requires n > 0 && k < |SplitN(s, c, n)| && (k < |SplitN(s, c, n)| - 1 || |SplitN(s, c, n)| < n)
    ensures c !in SplitN(s, c, n)[k]
    decreases n
  {
    var i := IndexOf(s, c);
    if n == 1 || i == |s| {
      assert s[..i] == s;
    } else if k > 0 {
      PartsAreWhole(s[i + 1..], c, n - 1, k - 1);
    }
  }

  lemma FirstSeparator(a: string, c: char, b: string)
    requires c !in a
    ensures IndexOf(a + [c] + b, c) == |a|
  {
    var s := a + [c] + b;
    var i := IndexOf(s, c);
    assert s[|a|] == c;
    assert forall k :: 0 <= k < i ==> s[k] == s[..i][k] != c;
    assert forall k :: 0 <= k < |a| ==> s[k] == a[k] != c;
  }

  lemma NoSeparator(a: string, c: char)
    requires c !in a
    ensures IndexOf(a, c) == |a|
  {
  }

  /** Taking off a first part that contains no separator. */
  lemma SplitFirst(a: string, c: char, b: string, n: nat)
    requires c !in a && n > 1
    ensures SplitN(a + [c] + b, c, n) == [a] + SplitN(b, c, n - 1)
  {
    FirstSeparator(a, c, b);
    assert (a + [c] + b)[..|a|] == a && (a + [c] + b)[|a| + 1..] == b;
  }

  // ----- round trips -----

  lemma SetParts(key: string, value: string)
    requires ':' !in key
    ensures SplitN(SetCommand(key, value), ':', 3) == ["SET", key, value]
  {
    assert SetCommand(key, value) == "SET" + [':'] + (key + [':'] + value);
    SplitFirst("SET", ':', key + [':'] + value, 3);
    SplitFirst(key, ':', value, 2);
  }

  /** A SET request becomes the entry with its key and value exactly when the key contains no colon. */
  lemma SetRoundTrip(term: nat, key: string, value: string)
    ensures EntryOf(term, SetCommand(key, value)) == Entry(term, "SET", key, Text(value), NoChange) <==> ':' !in key
  {
    if ':' in key {
      var i := IndexOf(key, ':');
      assert SetCommand(key, value) == "SET" + [':'] + (key[..i] + [':'] + (key[i + 1..] + ":" + value));
      SplitFirst("SET", ':', key[..i] + [':'] + (key[i + 1..] + ":" + value), 3);
      SplitFirst(key[..i], ':', key[i + 1..] + ":" + value, 2);
    } else {
      SetParts(key, value);
    }
  }

  /** A DELETE request becomes the entry with its key and no value exactly when the key contains no colon. */
  lemma DeleteRoundTrip(term: nat, key: string)
    ensures EntryOf(term, DeleteCommand(key)) == Entry(term, "DELETE", key, Nil, NoChange) <==> ':' !in key
  {
    assert DeleteCommand(key) == "DELETE" + [':'] + key;
    SplitFirst("DELETE", ':', key, 3);
    var i := IndexOf(key, ':');
    if ':' in key {
      assert SplitN(key, ':', 2)[0] == key[..i];
    } else {
      NoSeparator(key, ':');
    }
  }

  /** A CLEAN request becomes an entry without key and value. */
  lemma CleanRoundTrip(term: nat)
    ensures EntryOf(term, CLEAN_COMMAND) == Entry(term, "CLEAN", "", Nil, NoChange)
  {
    NoSeparator("CLEAN", ':');
  }

  /** Whatever their keys, requests of different kinds never become the same entry. */
  lemma KindsStayApart(term: nat, key: string, value: string)
    ensures EntryOf(term, SetCommand(key, value)).command == "SET"
    ensures EntryOf(term, DeleteCommand(key)).command == "DELETE"
  {
    assert SetCommand(key, value) == "SET" + [':'] + (key + ":" + value);
    SplitFirst("SET", ':', key + ":" + value, 3);
    assert DeleteCommand(key) == "DELETE" + [':'] + key;
    SplitFirst("DELETE", ':', key, 3);
  }

  /** Different requests with colon-free keys never become the same entry. */
  lemma RequestsStayApart(term: nat, key: string, value: string, key': string, value': string)
    requires ':' !in key && ':' !in key'
    ensures EntryOf(term, SetCommand(key, value)) == EntryOf(term, SetCommand(key', value')) ==>
              key == key' && value == value'
    ensures EntryOf(term, DeleteCommand(key)) == EntryOf(term, DeleteCommand(key')) ==> key == key'
    ensures EntryOf(term, SetCommand(key, value)) != EntryOf(term, DeleteCommand(key'))
  {
    SetRoundTrip(term, key, value);
    SetRoundTrip(term, key', value');
    DeleteRoundTrip(term, key);
    DeleteRoundTrip(term, key');
    KindsStayApart(term, key, value);
    KindsStayApart(term, key', value');
  }

  /**
   In general two SET requests print alike exactly when they do so behind the first colon: keys with colons can make
   different requests one command.
  */
  lemma AlikeRequests(key: string, value: string, key': string, value': string)
    ensures SetCommand(key, value) == SetCommand(key', value') <==> key + ":" + value == key' + ":" + value'
  {
    assert SetCommand(key, value) == "SET:" + (key + ":" + value);
    assert SetCommand(key', value') == "SET:" + (key' + ":" + value');
    assert ("SET:" + (key + ":" + value))[4..] == key + ":" + value;
    assert ("SET:" + (key' + ":" + value'))[4..] == key' + ":" + value';
  }

  /** The requests are then the same if and only if the keys are equally long. */
  lemma AlikeIsSame(key: string, value: string, key': string, value': string)
    requires SetCommand(key, value) == SetCommand(key', value')
    ensures (key == key' && value == value') <==> |key| == |key'|
  {
    AlikeRequests(key, value, key', value');
    if |key| == |key'| {
      assert key == (key + ":" + value)[..|key|] && key' == (key' + ":" + value')[..|key'|];
      assert value == (key + ":" + value)[|key| + 1..] && value' == (key' + ":" + value')[|key'| + 1..];
    }
  }
}
