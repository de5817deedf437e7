/** The few JavaScript built-ins the relay engine leans on, stated as Dafny
    values: truthiness of strings and numbers, `startsWith`, `includes`,
    `trim`, `split(' ')`, and a `Map` that remembers insertion order
    (so that `Array.from(m.values()).pop()` has a meaning). */
module Js {

  /** `undefined` or a value. */
  datatype Option<T> = None | Some(value: T)

  /** A string used as a condition: only the empty string is falsy. */
  predicate Truthy(s: string) {
    s != ""
  }

  /** A possibly `undefined` string used as a condition. */
  predicate TruthyOption(o: Option<string>) {
    o.Some? && Truthy(o.value)
  }

  /** How a template literal renders a possibly `undefined` string. */
  function Render(o: Option<string>): string {
    if o.Some? then o.value else "undefined"
  }

  /** `s.startsWith(prefix)`. */
  predicate StartsWith(s: string, prefix: string) {
    |prefix| <= |s| && s[..|prefix|] == prefix
  }

  /** `s.includes(t)`, computed by scanning `s` from the left. */
  predicate Includes(s: string, t: string)
    decreases |s|
  {
    StartsWith(s, t) || (s != [] && Includes(s[1..], t))
  }

  /** The scan finds `t` exactly when `t` occurs somewhere in `s`. */
  lemma {:induction false} IncludesIffOccurs(s: string, t: string)
    ensures Includes(s, t) <==> exists i :: 0 <= i <= |s| && StartsWith(s[i..], t)
    decreases |s|
  {
    if StartsWith(s, t) {
      assert s[0..] == s;
    } else if s == [] {
    } else {
      IncludesIffOccurs(s[1..], t);
      if Includes(s[1..], t) {
        var i :| 0 <= i <= |s[1..]| && StartsWith(s[1..][i..], t);
        assert s[1..][i..] == s[i + 1..];
      }
      if i :| 0 <= i <= |s| && StartsWith(s[i..], t) {
        assert i != 0 by { assert s[0..] == s; }
        assert s[1..][i - 1..] == s[i..];
      }
    }
  }

  /** The characters ECMAScript's `String.prototype.trim` removes:
      WhiteSpace (tab, vertical tab, form feed, space, no-break space, the
      byte-order mark and the Unicode space separators) and LineTerminator. */
  predicate IsWhiteSpace(c: char) {
    || c == '\t' || c == '\n' || c == '\U{000B}' || c == '\U{000C}' || c == '\r' || c == ' '
    || c == '\U{00A0}' || c == '\U{1680}' || ('\U{2000}' <= c <= '\U{200A}')
    || c == '\U{2028}' || c == '\U{2029}' || c == '\U{202F}' || c == '\U{205F}'
    || c == '\U{3000}' || c == '\U{FEFF}'
  }

  /** `s` with its leading white space removed: a suffix of `s` that does not
      start with white space, and everything cut off is white space. */
  function TrimStart(s: string): (r: string)
    ensures |r| <= |s| && r == s[|s| - |r|..]
    ensures forall i :: 0 <= i < |s| - |r| ==> IsWhiteSpace(s[i])
    ensures r == [] || !IsWhiteSpace(r[0])
    decreases |s|
  {
    if s != [] && IsWhiteSpace(s[0]) then
      var r := TrimStart(s[1..]);
      assert s[1..][|s| - 1 - |r|..] == s[|s| - |r|..];
      r
    else s
  }

  /** `s` with its trailing white space removed: a prefix of `s` that does
      not end in white space, and everything cut off is white space. */
  function TrimEnd(s: string): (r: string)
    ensures |r| <= |s| && r == s[..|r|]
    ensures forall i :: |r| <= i < |s| ==> IsWhiteSpace(s[i])
    ensures r == [] || !IsWhiteSpace(r[|r| - 1])
    decreases |s|
  {
    if s != [] && IsWhiteSpace(s[|s| - 1]) then
      var r := TrimEnd(s[..|s| - 1]);
      assert s[..|s| - 1][..|r|] == s[..|r|];
      r
    else s
  }

  /** `s.trim()`. */
  function Trim(s: string): string {
    TrimEnd(TrimStart(s))
  }

  /** A string made only of white space. */
  predicate AllWhiteSpace(s: string) {
    forall i :: 0 <= i < |s| ==> IsWhiteSpace(s[i])
  }

  /** Trimming undoes padding: whatever white space surrounds a text that
      neither starts nor ends with white space, `trim` returns that text. */
  lemma TrimOfPadded(lead: string, t: string, trail: string)
    requires AllWhiteSpace(lead) && AllWhiteSpace(trail)
    requires t == [] || (!IsWhiteSpace(t[0]) && !IsWhiteSpace(t[|t| - 1]))
    ensures Trim(lead + t + trail) == t
  {
    if t == [] {
      assert lead + t + trail == lead + trail;
      TrimStartOfPadded(lead + trail, []);
      assert lead + trail + [] == lead + trail;
    } else {
      assert lead + t + trail == lead + (t + trail);
      TrimStartOfPadded(lead, t + trail);
      TrimEndOfPadded(t, trail);
    }
  }

  lemma {:induction false} TrimStartOfPadded(lead: string, u: string)
    requires AllWhiteSpace(lead)
    requires u == [] || !IsWhiteSpace(u[0])
    ensures TrimStart(lead + u) == u
    decreases |lead|
  {
    if lead == [] {
      assert lead + u == u;
    } else {
      assert (lead + u)[1..] == lead[1..] + u;
      TrimStartOfPadded(lead[1..], u);
    }
  }

  lemma {:induction false} TrimEndOfPadded(u: string, trail: string)
    requires AllWhiteSpace(trail)
    requires u == [] || !IsWhiteSpace(u[|u| - 1])
    ensures TrimEnd(u + trail) == u
    decreases |trail|
  {
    if trail == [] {
      assert u + trail == u;
    } else {
      assert (u + trail)[..|u + trail| - 1] == u + trail[..|trail| - 1];
      TrimEndOfPadded(u, trail[..|trail| - 1]);
    }
  }

  /** The text of `s` up to its first space (all of `s` when it has none). */
  function FirstField(s: string): (r: string)
    ensures |r| <= |s| && r == s[..|r|] && ' ' !in r
    ensures |r| < |s| ==> s[|r|] == ' '
  {
    if s == [] || s[0] == ' ' then [] else [s[0]] + FirstField(s[1..])
  }

  /** `s.split(' ')`: the fields between single spaces, in order. */
  function Split(s: string): (r: seq<string>)
    ensures |r| >= 1 && r[0] == FirstField(s)
    ensures |r| == 1 <==> ' ' !in s
    ensures forall i :: 0 <= i < |r| ==> ' ' !in r[i]
    decreases |s|
  {
    var head := FirstField(s);
    if |head| == |s| then [s]
    else
      assert s[|head|] in s;
      [head] + Split(s[|head| + 1..])
  }

  /** `parts.join(' ')`. */
  function JoinWithSpaces(parts: seq<string>): string
    requires |parts| >= 1
  {
    if |parts| == 1 then parts[0] else parts[0] + " " + JoinWithSpaces(parts[1..])
  }

  /** Splitting on spaces loses nothing: joining the fields gives `s` back. */
  lemma {:induction false} SplitJoin(s: string)
    ensures JoinWithSpaces(Split(s)) == s
    decreases |s|
  {
    var head := FirstField(s);
    if |head| < |s| {
      var rest := s[|head| + 1..];
      SplitJoin(rest);
      SplitCons(s);
      FirstFieldThenRest(s);
      JoinCons(head, Split(rest));
    }
  }

  /** When `s` has a space, `split` is its first field followed by the
      split of what comes after that space. */
  lemma SplitCons(s: string)
    requires |FirstField(s)| < |s|
    ensures Split(s) == [FirstField(s)] + Split(s[|FirstField(s)| + 1..])
  {
  }

  /** When `s` has a space, it is its first field, that space, and the rest. */
  lemma FirstFieldThenRest(s: string)
    requires |FirstField(s)| < |s|
    ensures s == FirstField(s) + " " + s[|FirstField(s)| + 1..]
  {
    var k := |FirstField(s)|;
    assert s == s[..k] + [s[k]] + s[k + 1..];
  }

  lemma JoinCons(head: string, fields: seq<string>)
    requires |fields| >= 1
    ensures JoinWithSpaces([head] + fields) == head + " " + JoinWithSpaces(fields)
  {
    assert ([head] + fields)[1..] == fields;
  }

  /** The first field of "<cmd> <rest>" is `cmd` when `cmd` has no space. */
  lemma FirstFieldOf(cmd: string, rest: string)
    requires ' ' !in cmd
    ensures FirstField(cmd + " " + rest) == cmd
  {
    var s := cmd + " " + rest;
    assert forall i :: 0 <= i < |cmd| ==> s[i] == cmd[i];
    assert s[|cmd|] == ' ';
    assert s[..|cmd|] == cmd;
  }

  /** The word after the first space of "<cmd> <arg>" is `arg` when neither
      has a space. */
  lemma SecondFieldOf(cmd: string, arg: string)
    requires ' ' !in cmd && ' ' !in arg
    ensures SecondField(cmd + " " + arg) == Some(arg)
  {
    var s := cmd + " " + arg;
    FirstFieldOf(cmd, arg);
    assert s[|cmd| + 1..] == arg;
    assert Split(arg) == [arg];
  }

  /** `s.split(' ').slice(1)[0]`: the word after the first space, or
      `undefined` when `s` has no space. */
  function SecondField(s: string): (r: Option<string>)
    ensures r.None? <==> ' ' !in s
    ensures r.Some? ==> ' ' !in r.value
    ensures r.Some? ==> |FirstField(s)| < |s| && r.value == FirstField(s[|FirstField(s)| + 1..])
  {
    var fields := Split(s);
    if |fields| > 1 then FirstFieldShort(s); SecondIsFirstOfRest(s); Some(fields[1]) else None
  }

  /** When `s` has a space, its first field ends before the end of `s`. */
  lemma FirstFieldShort(s: string)
    requires ' ' in s
    ensures |FirstField(s)| < |s|
  {
  }

  lemma SecondIsFirstOfRest(s: string)
    requires |FirstField(s)| < |s|
    ensures Split(s)[1] == FirstField(s[|FirstField(s)| + 1..])
  {
    SplitCons(s);
  }

  /** A `Map` with string keys: its entries and the order in which their keys
      were inserted (re-setting a key keeps its place; deleting it and
      setting it again moves it to the end). */
  datatype OrderedMap<V> = OrderedMap(order: seq<string>, entries: map<string, V>) {

    /** Every key listed once, and listed exactly when it has an entry. */
    ghost predicate Valid() {
      && Distinct(order)
      && (forall k :: k in order <==> k in entries)
    }

    /** `m.has(k)`. */
    predicate Has(k: string) {
      k in entries
    }

    /** `m.get(k)`. */
    function Get(k: string): (r: Option<V>)
      ensures r.Some? <==> k in entries
      ensures r.Some? ==> r.value == entries[k]
    {
      if k in entries then Some(entries[k]) else None
    }

    /** `m.set(k, v)`. */
    function Set(k: string, v: V): (r: OrderedMap<V>)
      ensures r.entries == entries[k := v]
      ensures k !in entries ==> r.order == order + [k]
      ensures k in entries ==> r.order == order
      ensures Valid() ==> r.Valid()
    {
      if k in entries then OrderedMap(order, entries[k := v])
      else OrderedMap(order + [k], entries[k := v])
    }

    /** `m.delete(k)`; a key that is absent leaves the map as it is. */
    function Delete(k: string): (r: OrderedMap<V>)
      ensures r.entries == entries - {k}
      ensures forall x :: x in r.order <==> x in order && x != k
      ensures Valid() ==> r.Valid()
      ensures Valid() && k !in entries ==> r == this
      ensures Distinct(order) ==> forall i :: 0 <= i < |order| && order[i] == k ==> r.order == order[..i] + order[i + 1..]
    {
      DeleteKeepsValid(this, k);
      DeleteAbsent(this, k);
      WithoutDistinct(order, k);
      OrderedMap(Without(order, k), entries - {k})
    }

    /** `Array.from(m.values()).pop()`: the value of the key inserted last,
        or `undefined` for an empty map. */
    function Last(): (r: Option<V>)
      ensures Valid() ==> (r.None? <==> entries == map[])
      ensures Valid() && order != [] ==> r == Some(entries[order[|order| - 1]])
    {
      if order != [] && order[|order| - 1] in entries then Some(entries[order[|order| - 1]])
      else OrderedNonEmpty(this); None
    }
  }

  lemma DeleteKeepsValid<V>(m: OrderedMap<V>, k: string)
    ensures m.Valid() ==> OrderedMap(Without(m.order, k), m.entries - {k}).Valid()
  {
  }

  lemma DeleteAbsent<V>(m: OrderedMap<V>, k: string)
    ensures m.Valid() && k !in m.entries ==> OrderedMap(Without(m.order, k), m.entries - {k}) == m
  {
    WithoutAbsent(m.order, k);
  }

  /** Deleting any key other than the one inserted last leaves `Last` as it
      was: the survivors keep their insertion order. */
  lemma DeleteKeepsLast<V>(m: OrderedMap<V>, k: string)
    requires m.Valid() && m.order != [] && m.order[|m.order| - 1] != k
    ensures m.Delete(k).Last() == m.Last()
  {
    assert m.order[|m.order| - 1] in m.entries;
    WithoutKeepsLast(m.order, k);
  }

  /** Leaving a key other than the last out of a list without repeats keeps
      its last element. */
  lemma WithoutKeepsLast(s: seq<string>, k: string)
    requires Distinct(s) && s != [] && s[|s| - 1] != k
    ensures var r := Without(s, k); r != [] && r[|r| - 1] == s[|s| - 1]
  {
    if k in s {
      var i :| 0 <= i < |s| && s[i] == k;
      WithoutAt(s, k, i);
      LastOfRemoved(s, i);
    } else {
      WithoutAbsent(s, k);
    }
  }


  lemma LastOfRemoved(s: seq<string>, i: nat)
    requires i < |s| - 1
    ensures var t := s[..i] + s[i + 1..]; t != [] && t[|t| - 1] == s[|s| - 1]
  {
  }

  lemma OrderedNonEmpty<V>(m: OrderedMap<V>)
    ensures m.Valid() && m.entries != map[] ==> m.order != [] && m.order[|m.order| - 1] in m.entries
  {
    if m.Valid() && m.entries != map[] {
      var k :| k in m.entries;
      assert k in m.order;
    }
  }

  /** `m.clear()`, and the map a fresh `new Map()` starts with. */
  function EmptyMap<V>(): (r: OrderedMap<V>)
    ensures r.Valid() && r.entries == map[]
  {
    OrderedMap([], map[])
  }

  /** `s` with every occurrence of `k` left out, the rest in order. */
  function Without(s: seq<string>, k: string): (r: seq<string>)
    ensures forall x :: x in r <==> x in s && x != k
    ensures Distinct(s) ==> Distinct(r)
  {
    if s == [] then []
    else if s[0] == k then Without(s[1..], k)
    else
      var rest := Without(s[1..], k);
      DistinctCons(s);
      [s[0]] + rest
  }

  /** No element occurs twice. */
  ghost predicate Distinct(s: seq<string>) {
    forall i, j :: 0 <= i < j < |s| ==> s[i] != s[j]
  }

  lemma DistinctCons(s: seq<string>)
    requires s != []
    ensures Distinct(s) ==> s[0] !in s[1..] && Distinct(s[1..])
  {
    if Distinct(s) {
      forall j | 0 <= j < |s[1..]| ensures s[1..][j] != s[0] {
        assert s[1..][j] == s[j + 1];
      }
      forall i, j | 0 <= i < j < |s[1..]| ensures s[1..][i] != s[1..][j] {
        assert s[1..][i] == s[i + 1] && s[1..][j] == s[j + 1];
      }
    }
  }

  /** In a list without repeats, leaving `k` out removes exactly the one
      position that holds it. */
  lemma WithoutDistinct(s: seq<string>, k: string)
    ensures Distinct(s) ==> forall i :: 0 <= i < |s| && s[i] == k ==> Without(s, k) == s[..i] + s[i + 1..]
  {
    if Distinct(s) {
      forall i | 0 <= i < |s| && s[i] == k
        ensures Without(s, k) == s[..i] + s[i + 1..]
      {
        WithoutAt(s, k, i);
      }
    }
  }

  lemma {:induction false} WithoutAt(s: seq<string>, k: string, i: nat)
    requires Distinct(s) && i < |s| && s[i] == k
    ensures Without(s, k) == s[..i] + s[i + 1..]
    decreases |s|
  {
    DistinctCons(s);
    if i == 0 {
      WithoutAbsent(s[1..], k);
    } else {
      WithoutAt(s[1..], k, i - 1);
      assert s[1..][..i - 1] + s[1..][i..] == s[1..i] + s[i + 1..];
      assert s == [s[0]] + s[1..];
    }
  }

  lemma {:induction false} WithoutAbsent(s: seq<string>, k: string)
    ensures k !in s ==> Without(s, k) == s
  {
    if s != [] && k !in s {
      WithoutAbsent(s[1..], k);
    }
  }
}
