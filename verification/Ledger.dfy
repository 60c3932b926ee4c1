/** The ledger: its events, the one spelling of a symbol and an account, and the order they are read back in. */
module Ledger {
  import opened Basics

  datatype Kind = Buy | Sell | Grant | Dividend | Deposit | Withdrawal

  datatype Event = Event(
    date: int, kind: Kind, account: Option<string>, symbol: Option<string>, name: Option<string>,
    quantity: Option<real>, unitPrice: Option<real>, fee: Option<real>, amount: Option<real>, notes: Option<string>,
    id: Option<nat>)

  const DEFAULT_ACCOUNT := "default"

  // ---- Spellings, over ASCII text ----

  predicate IsBlank(c: char) {
    c == ' ' || 9 <= c as int <= 13 || 28 <= c as int <= 31
  }

  function LeftStrip(s: string): (r: string)
    ensures r == [] || !IsBlank(r[0])
    ensures s != [] && !IsBlank(s[0]) ==> r == s
  {
    if s == [] || !IsBlank(s[0]) then s else LeftStrip(s[1..])
  }

  function RightStrip(s: string): (r: string)
    ensures r == [] || !IsBlank(r[|r| - 1])
    ensures s != [] && !IsBlank(s[0]) ==> r != [] && r[0] == s[0]
    ensures s != [] && !IsBlank(s[|s| - 1]) ==> r == s
  {
    if s == [] || !IsBlank(s[|s| - 1]) then s else RightStrip(s[..|s| - 1])
  }

  function Strip(s: string): (r: string)
    ensures r == [] || (!IsBlank(r[0]) && !IsBlank(r[|r| - 1]))
  {
    RightStrip(LeftStrip(s))
  }

  function UpperChar(c: char): (u: char)
    ensures IsBlank(u) <==> IsBlank(c)
    ensures !('a' <= u <= 'z')
  {
    if 'a' <= c <= 'z' then (c as int - 32) as char else c
  }

  function Upper(s: string): (r: string)
    ensures |r| == |s| && forall i :: 0 <= i < |s| ==> r[i] == UpperChar(s[i])
  {
    seq(|s|, i requires 0 <= i < |s| => UpperChar(s[i]))
  }

  /** The one spelling a security is stored under; nothing for a blank one. */
  function Canonical(text: Option<string>): Option<string> {
    if text.None? then None
    else
      var folded := Upper(Strip(text.value));
      if folded == [] then None else Some(folded)
  }

  lemma CanonicalIsIdempotent(text: Option<string>)
    ensures Canonical(Canonical(text)) == Canonical(text)
  {
    if text.Some? {
      var stripped := Strip(text.value);
      var folded := Upper(stripped);
      if folded != [] {
        assert Strip(folded) == folded;
        assert Upper(folded) == folded;
      }
    }
  }

  /** The account as it is written, trimmed; nothing for a blank one. */
  function TrimmedAccount(account: Option<string>): Option<string> {
    var trimmed := Strip(if account.Some? then account.value else "");
    if trimmed == [] then None else Some(trimmed)
  }

  function NamedAccount(account: Option<string>): string {
    if account.None? || account.value == [] then DEFAULT_ACCOUNT else account.value
  }

  /** Both spellings of an account are already settled once stored. */
  lemma AccountIsSettled(account: Option<string>)
    ensures var stored := Some(NamedAccount(TrimmedAccount(account)));
            && NamedAccount(TrimmedAccount(stored)) == NamedAccount(TrimmedAccount(account))
            && NamedAccount(stored) == NamedAccount(TrimmedAccount(account))
  {
    assert Strip(DEFAULT_ACCOUNT) == DEFAULT_ACCOUNT;
  }

  /** `t` is `s` without the blanks around it. */
  ghost predicate Trims(s: string, t: string) {
    exists i, j :: TrimsAt(s, t, i, j)
  }

  predicate TrimsAt(s: string, t: string, i: int, j: int) {
    && 0 <= i <= j <= |s| && t == s[i..j]
    && (forall k :: 0 <= k < i ==> IsBlank(s[k])) && (forall k :: j <= k < |s| ==> IsBlank(s[k]))
    && (t != [] ==> !IsBlank(t[0]) && !IsBlank(t[|t| - 1]))
  }

  lemma {:induction false} LeftStripIs(s: string) returns (i: nat)
    ensures i <= |s| && LeftStrip(s) == s[i..] && forall k :: 0 <= k < i ==> IsBlank(s[k])
  {
    i := 0;
    if s != [] && IsBlank(s[0]) {
      var rest := LeftStripIs(s[1..]);
      i := rest + 1;
      assert s[1..][rest..] == s[i..];
      assert forall k :: 0 < k < i ==> s[k] == s[1..][k - 1];
    }
  }

  lemma {:induction false} RightStripIs(s: string) returns (j: nat)
    ensures j <= |s| && RightStrip(s) == s[..j] && forall k :: j <= k < |s| ==> IsBlank(s[k])
  {
    j := |s|;
    if s != [] && IsBlank(s[|s| - 1]) {
      j := RightStripIs(s[..|s| - 1]);
    }
  }

  lemma StripTrims(s: string)
    ensures Trims(s, Strip(s))
  {
    hide LeftStrip, RightStrip, TrimsAt, IsBlank;
    var i := LeftStripIs(s);
    var j := RightStripIs(LeftStrip(s));
    StripAt(s, i, j);
  }

  lemma StripAt(s: string, i: nat, j: nat)
    requires i <= |s| && j <= |s| - i && LeftStrip(s) == s[i..] && RightStrip(s[i..]) == s[i..][..j]
    requires (forall k :: 0 <= k < i ==> IsBlank(s[k])) && forall k :: j <= k < |s| - i ==> IsBlank(s[i..][k])
    ensures TrimsAt(s, Strip(s), i, i + j)
  {
    hide LeftStrip, RightStrip, IsBlank;
    var t := Strip(s);
    assert t == s[i..][..j];
    hide Strip;
    assert s[i..][..j] == s[i..i + j];
    forall k | i + j <= k < |s| ensures IsBlank(s[k]) {
      assert s[k] == s[i..][k - i];
    }
  }

  /** Two ASCII texts that differ by case alone. */
  predicate SameLetters(a: string, b: string) {
    && |a| == |b|
    && forall i :: 0 <= i < |a| ==>
         b[i] == if 'a' <= a[i] <= 'z' then (a[i] as int - 'a' as int + 'A' as int) as char else a[i]
  }

  /** A symbol is spelled without the blanks around it and in capitals; a blank one is none. */
  lemma CanonicalSpells(text: string)
    ensures match Canonical(Some(text))
            case None => Trims(text, [])
            case Some(spelled) => spelled != [] && exists t :: Trims(text, t) && SameLetters(t, spelled)
    ensures Canonical(None) == None
  {
    StripTrims(text);
    var t := Strip(text);
    assert SameLetters(t, Upper(t));
  }

  /** An account is written without the blanks around it, and is the default one when nothing is left. */
  lemma AccountSpells(account: Option<string>)
    ensures match TrimmedAccount(account)
            case None => (account.Some? ==> Trims(account.value, []))
            case Some(t) => t != [] && account.Some? && Trims(account.value, t)
    ensures NamedAccount(None) == "default" && NamedAccount(Some("")) == "default"
    ensures forall a: string :: a != [] ==> NamedAccount(Some(a)) == a
  {
    StripTrims(if account.Some? then account.value else "");
    assert Strip("") == "";
  }

  // ---- The read order ----

  predicate Precedes(a: Event, b: Event) {
    a.id.Some? && b.id.Some? && (a.date < b.date || (a.date == b.date && a.id.value < b.id.value))
  }

  /** The table's rows, each once, by date and then by key. */
  ghost predicate IsReadOrder(events: seq<Event>, rows: map<nat, Event>) {
    && (forall i :: 0 <= i < |events| ==> IsRow(events[i], rows))
    && (forall id :: id in rows ==> rows[id] in events)
    && forall i, j :: 0 <= i < j < |events| ==> Precedes(events[i], events[j])
  }

  predicate IsRow(e: Event, rows: map<nat, Event>) {
    e.id.Some? && e.id.value in rows && rows[e.id.value] == e
  }

  predicate Keyed(rows: map<nat, Event>) {
    forall id :: id in rows ==> rows[id].id == Some(id)
  }

  /** A table is read back in one way. */
  lemma {:induction false} OneReadOrder(a: seq<Event>, b: seq<Event>, rows: map<nat, Event>)
    requires IsReadOrder(a, rows) && IsReadOrder(b, rows) && Keyed(rows)
    ensures a == b
  {
    hide IsReadOrder;
    if a == [] {
      EmptyTogether(a, b, rows);
    } else if b == [] {
      EmptyTogether(b, a, rows);
    } else {
      var m, n := |a| - 1, |b| - 1;
      SameLast(a, b, rows);
      WithoutLast(a, rows);
      WithoutLast(b, rows);
      OneReadOrder(a[..m], b[..n], rows - {a[m].id.value});
      assert a == a[..m] + [a[m]] && b == b[..n] + [b[n]];
    }
  }

  lemma EmptyTogether(a: seq<Event>, b: seq<Event>, rows: map<nat, Event>)
    requires IsReadOrder(a, rows) && IsReadOrder(b, rows) && a == []
    ensures b == []
  {
    assert b != [] ==> IsRow(b[0], rows);
  }

  lemma SameLast(a: seq<Event>, b: seq<Event>, rows: map<nat, Event>)
    requires IsReadOrder(a, rows) && IsReadOrder(b, rows) && a != [] && b != []
    ensures a[|a| - 1] == b[|b| - 1] && IsRow(a[|a| - 1], rows)
  {
    var m, n := |a| - 1, |b| - 1;
    assert IsRow(a[m], rows) && IsRow(b[n], rows);
    var i :| 0 <= i <= n && b[i] == a[m];
    var j :| 0 <= j <= m && a[j] == b[n];
    assert i < n ==> Precedes(b[i], b[n]);
    assert j < m ==> Precedes(a[j], a[m]);
  }

  lemma WithoutLast(events: seq<Event>, rows: map<nat, Event>)
    requires events != [] && IsReadOrder(events, rows) && Keyed(rows)
    ensures var n := |events| - 1;
            IsReadOrder(events[..n], rows - {events[n].id.value}) && Keyed(rows - {events[n].id.value})
  {
    var n := |events| - 1;
    var rest := rows - {events[n].id.value};
    forall i | 0 <= i < n ensures IsRow(events[..n][i], rest) {
      assert Precedes(events[i], events[n]);
      assert IsRow(events[i], rows) && IsRow(events[n], rows);
    }
    forall id | id in rest ensures rest[id] in events[..n] {
      var i :| 0 <= i <= n && events[i] == rows[id];
      assert i != n;
      assert events[..n][i] == rows[id];
    }
  }
}
