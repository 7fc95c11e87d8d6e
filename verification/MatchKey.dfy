/**
 * Match keys: protocol, field names and escaped field values in one string.  Selectors compare
 * keys as whole strings, so two different values must never build the same key.
 */
module MatchKey {

  predicate Special(c: char) {
    c == '|' || c == '='
  }

  predicate StartsWithPair(v: string) {
    |v| >= 2 && v[0] == '\\' && v[1] == '\\'
  }

  /** The replacer: two backslashes become four, `|` and `=` get a backslash, and everything else,
      a lone backslash included, is copied.  Matches are taken left to right without overlap. */
  function Escape(v: string): string {
    if v == "" then ""
    else if StartsWithPair(v) then "\\\\\\\\" + Escape(v[2..])
    else if Special(v[0]) then ['\\', v[0]] + Escape(v[1..])
    else [v[0]] + Escape(v[1..])
  }

  function SingleFieldKey(proto: string, name: string, value: string): string {
    proto + "|" + name + "=" + Escape(value)
  }

  function TwoFieldKey(proto: string, nameA: string, valueA: string, nameB: string, valueB: string): string {
    proto + "|" + nameA + "=" + Escape(valueA) + "|" + nameB + "=" + Escape(valueB)
  }

  // Escaping one value

  /** A value that does not open with a special character or a pair escapes to something that does
      not open with one either. */
  lemma EscapeHead(v: string)
    requires v != ""
    ensures Escape(v) != ""
    ensures Escape(v)[0] == if Special(v[0]) then '\\' else v[0]
  {
  }

  lemma {:induction false} EscapeInjective(a: string, b: string)
    requires Escape(a) == Escape(b)
    ensures a == b
  {
    if a == "" || b == "" {
      if a != "" { EscapeHead(a); }
      if b != "" { EscapeHead(b); }
    } else if StartsWithPair(a) != StartsWithPair(b) {
      if StartsWithPair(a) { PairIsVisible(b); } else { PairIsVisible(a); }
    } else if StartsWithPair(a) {
      assert Escape(a)[4..] == Escape(a[2..]);
      assert Escape(b)[4..] == Escape(b[2..]);
      EscapeInjective(a[2..], b[2..]);
      assert a == a[..2] + a[2..] && b == b[..2] + b[2..];
    } else {
      SameFirst(a, b);
      var n := if Special(a[0]) then 2 else 1;
      assert Escape(a)[n..] == Escape(a[1..]);
      assert Escape(b)[n..] == Escape(b[1..]);
      EscapeInjective(a[1..], b[1..]);
      assert a == [a[0]] + a[1..] && b == [b[0]] + b[1..];
    }
  }

  /** A special character shows up behind its backslash, a lone backslash is followed by neither. */
  lemma SecondChar(v: string)
    requires v != "" && !StartsWithPair(v)
    ensures Special(v[0]) ==> |Escape(v)| > 1 && Escape(v)[1] == v[0]
    ensures v[0] == '\\' && |Escape(v)| > 1 ==> !Special(Escape(v)[1])
  {
    if |v| == 1 {
      assert Escape(v[1..]) == "";
    } else {
      EscapeHead(v[1..]);
    }
  }

  predicate FourBackslashes(s: string) {
    |s| >= 4 && s[0] == '\\' && s[1] == '\\' && s[2] == '\\' && s[3] == '\\'
  }

  /** Four backslashes in front come only from a pair. */
  lemma PairIsVisible(v: string)
    requires v != "" && !StartsWithPair(v)
    ensures !FourBackslashes(Escape(v))
  {
    EscapeHead(v);
    SecondChar(v);
    if |v| == 1 {
      assert Escape(v[1..]) == "";
    } else if v[0] == '\\' {
      EscapeHead(v[1..]);
      assert Escape(v) == [v[0]] + Escape(v[1..]);
      if Special(v[1]) {
        SecondChar(v[1..]);
      }
    }
  }

  lemma SameFirst(a: string, b: string)
    requires a != "" && b != "" && !StartsWithPair(a) && !StartsWithPair(b)
    requires Escape(a) == Escape(b)
    ensures a[0] == b[0]
  {
    EscapeHead(a);
    EscapeHead(b);
    SecondChar(a);
    SecondChar(b);
  }

  lemma SingleFieldInjective(proto: string, name: string, a: string, b: string)
    requires SingleFieldKey(proto, name, a) == SingleFieldKey(proto, name, b)
    ensures a == b
  {
    var prefix := proto + "|" + name + "=";
    assert SingleFieldKey(proto, name, a)[|prefix|..] == Escape(a);
    assert SingleFieldKey(proto, name, b)[|prefix|..] == Escape(b);
    EscapeInjective(a, b);
  }

  // Cutting and joining escaped text after a special character

  predicate EndsSpecial(s: string) {
    s != "" && Special(s[|s| - 1])
  }

  lemma {:induction false} Glue(v: string, w: string)
    requires EndsSpecial(v)
    ensures Escape(v + w) == Escape(v) + Escape(w)
  {
    var n := if StartsWithPair(v) then 2 else 1;
    assert (v + w)[n..] == v[n..] + w;
    if |v| == 1 {
      assert Escape(v[1..]) == "";
      assert v[1..] + w == w;
    } else {
      Glue(v[n..], w);
    }
  }

  lemma {:induction false} SameEnd(v: string)
    requires v != ""
    ensures Escape(v) != "" && Escape(v)[|Escape(v)| - 1] == v[|v| - 1]
  {
    var n := if StartsWithPair(v) then 2 else 1;
    if |v| > n {
      SameEnd(v[n..]);
    } else {
      assert Escape(v[n..]) == "";
    }
  }

  /** Escaped text cut right after a special character falls into two escaped texts. */
  lemma {:induction false} Split(v: string, p: string, q: string) returns (v1: string, v2: string)
    requires Escape(v) == p + q && EndsSpecial(p)
    ensures v == v1 + v2 && Escape(v1) == p && Escape(v2) == q
  {
    assert v != "";
    var n := if StartsWithPair(v) then 2 else 1;
    var m := |Escape(v)| - |Escape(v[n..])|;
    FirstToken(v, p, q, n, m);
    if |p| == m {
      v1, v2 := v[..n], v[n..];
      assert Escape(v)[..m] + Escape(v)[m..] == Escape(v);
      assert p == Escape(v)[..m] && q == Escape(v)[m..];
      FirstAlone(v, n, m);
    } else {
      assert Escape(v)[m..] == p[m..] + q;
      var w: string;
      w, v2 := Split(v[n..], p[m..], q);
      FirstThen(v, n, m, w, v2);
      v1 := v[..n] + w;
    }
  }

  ghost predicate First(v: string, n: nat, m: nat) {
    && v != ""
    && n == (if StartsWithPair(v) then 2 else 1)
    && m == (if StartsWithPair(v) then 4 else if Special(v[0]) then 2 else 1)
  }

  lemma FirstToken(v: string, p: string, q: string, n: nat, m: int)
    requires v != "" && Escape(v) == p + q && EndsSpecial(p)
    requires n == (if StartsWithPair(v) then 2 else 1) && m == |Escape(v)| - |Escape(v[n..])|
    ensures First(v, n, m) && m <= |p| && Escape(v)[m..] == Escape(v[n..])
    ensures |p| == m ==> Special(v[0])
    ensures p == Escape(v)[..m] + p[m..]
  {
    assert p[|p| - 1] == Escape(v)[|p| - 1];
  }

  lemma FirstAlone(v: string, n: nat, m: nat)
    requires First(v, n, m) && Special(v[0])
    ensures Escape(v[..n]) == Escape(v)[..m]
  {
    assert v[..1][1..] == "";
    assert Escape(v[..1]) == ['\\', v[0]] + Escape(v[..1][1..]);
  }

  lemma FirstThen(v: string, n: nat, m: nat, v1: string, v2: string)
    requires First(v, n, m) && v[n..] == v1 + v2 && v1 != ""
    ensures Escape(v[..n] + v1) == Escape(v)[..m] + Escape(v1)
    ensures v == v[..n] + v1 + v2
  {
    assert v == v[..n] + v1 + v2;
    assert (v[..n] + v1)[n..] == v1;
    assert StartsWithPair(v[..n] + v1) == StartsWithPair(v);
  }

  // Two fields

  /** `s` is the escaped form of some text. */
  ghost predicate IsEscaped(s: string) {
    exists u :: Escape(u) == s
  }

  lemma PrefixIsEscaped(p: string, q: string)
    requires IsEscaped(p + q) && EndsSpecial(p)
    ensures IsEscaped(p) && IsEscaped(q)
  {
    var u :| Escape(u) == p + q;
    var v1, v2 := Split(u, p, q);
  }

  lemma GlueEscaped(p: string, q: string)
    requires IsEscaped(p) && EndsSpecial(p) && IsEscaped(q)
    ensures IsEscaped(p + q)
  {
    var u :| Escape(u) == p;
    var w :| Escape(w) == q;
    SameEnd(u);
    Glue(u, w);
  }

  /** Two readings of one string, the separator `t` sitting `d` places further right in the second. */
  ghost predicate Shifted(e: string, t: string, f: string, e': string, f': string, d: nat) {
    && IsEscaped(e') && IsEscaped(f)
    && e + t + f == e' + t + f'
    && |e'| == |e| + d
  }

  function Separator(name: string): string {
    "|" + name + "="
  }

  lemma FarShift(e: string, name: string, f: string, e': string, f': string, d: nat)
    requires Shifted(e, Separator(name), f, e', f', d) && d >= |Separator(name)|
    ensures IsEscaped(name + "=")
  {
    var t := Separator(name);
    var x := e + t + f;
    assert e' == x[..|e| + d];
    var g := x[|e| + |t|..|e| + d];
    assert e' == e + t + g;
    assert e' == (e + "|") + ((name + "=") + g);
    PrefixIsEscaped(e + "|", (name + "=") + g);
    PrefixIsEscaped(name + "=", g);
  }

  lemma NearShift(e: string, name: string, f: string, e': string, f': string, d: nat)
    requires Shifted(e, Separator(name), f, e', f', d) && 0 < d < |Separator(name)|
    ensures IsEscaped(name + "=")
  {
    var t := Separator(name);
    NearPieces(e, name, f, e', f', d);
    Period(e, t, f, e', f', d);
    PeriodicIsEscaped(t, d, |t|);
    assert t[1..|t|] == name + "=";
  }

  lemma NearPieces(e: string, name: string, f: string, e': string, f': string, d: nat)
    requires Shifted(e, Separator(name), f, e', f', d) && 0 < d < |Separator(name)|
    ensures IsEscaped(Separator(name)[1..d]) && IsEscaped(Separator(name)[|Separator(name)| - d..])
  {
    var t := Separator(name);
    var x := e + t + f;
    assert e' == x[..|e| + d];
    assert e' == (e + "|") + t[1..d];
    PrefixIsEscaped(e + "|", t[1..d]);
    var tail := t[|t| - d..];
    assert f == x[|e| + |t|..];
    assert f == (e' + t + f')[|e| + |t|..];
    assert f == tail + f';
    PrefixIsEscaped(tail, f');
  }

  lemma Period(e: string, t: string, f: string, e': string, f': string, d: nat)
    requires Shifted(e, t, f, e', f', d) && 0 < d < |t|
    ensures forall i :: d <= i < |t| ==> t[i] == t[i - d]
  {
    forall i | d <= i < |t|
      ensures t[i] == t[i - d]
    {
      assert (e + t + f)[|e| + i] == t[i];
      assert (e' + t + f')[|e'| + (i - d)] == t[i - d];
    }
  }

  predicate Periodic(t: string, d: nat) {
    && 0 < d < |t| && t[0] == '|' && t[|t| - 1] == '='
    && (forall i :: d <= i < |t| ==> t[i] == t[i - d])
  }

  /** `n` is a whole number of periods before the end of `t`. */
  predicate Aligned(t: string, d: nat, n: nat)
    requires Periodic(t, d)
  {
    1 < n <= |t| && t[n - 1] == '=' && (n >= d ==> t[n - d..n] == t[|t| - d..])
  }

  lemma OnePeriodBack(t: string, d: nat, n: nat)
    requires Periodic(t, d) && 2 * d <= n <= |t|
    ensures t[n - 2 * d..n - d] == t[n - d..n]
  {
    assert forall j :: n - d <= j < n ==> t[j] == t[j - d];
    var p, q := t[n - 2 * d..n - d], t[n - d..n];
    forall i | 0 <= i < d
      ensures p[i] == q[i]
    {
      assert q[i] == t[n - d + i];
    }
  }

  lemma AlignedBack(t: string, d: nat, n: nat)
    requires Periodic(t, d) && Aligned(t, d, n) && n > d
    ensures Aligned(t, d, n - d)
  {
    assert t[n - 1] == t[n - d - 1];
    if n >= 2 * d {
      OnePeriodBack(t, d, n);
    }
  }

  lemma FirstPeriodIsEscaped(t: string, d: nat, n: nat)
    requires Periodic(t, d) && Aligned(t, d, n) && n <= d && IsEscaped(t[1..d])
    ensures IsEscaped(t[1..n])
  {
    assert t[1..d] == t[1..n] + t[n..d];
    PrefixIsEscaped(t[1..n], t[n..d]);
  }

  lemma OneMorePeriod(t: string, d: nat, n: nat)
    requires Periodic(t, d) && Aligned(t, d, n) && n > d && Aligned(t, d, n - d)
    requires IsEscaped(t[1..n - d]) && IsEscaped(t[|t| - d..])
    ensures IsEscaped(t[1..n])
  {
    assert t[1..n] == t[1..n - d] + t[n - d..n];
    GlueEscaped(t[1..n - d], t[n - d..n]);
  }

  /** With period `d`, every prefix that ends where the whole does, modulo `d`, is escaped. */
  lemma {:induction false} PeriodicIsEscaped(t: string, d: nat, n: nat)
    requires Periodic(t, d) && Aligned(t, d, n)
    requires IsEscaped(t[1..d]) && IsEscaped(t[|t| - d..])
    ensures IsEscaped(t[1..n])
    decreases n
  {
    if n <= d {
      FirstPeriodIsEscaped(t, d, n);
    } else {
      AlignedBack(t, d, n);
      PeriodicIsEscaped(t, d, n - d);
      OneMorePeriod(t, d, n);
    }
  }

  ghost predicate KeysInjective(proto: string, nameA: string, nameB: string) {
    forall a, b, a', b' ::
      TwoFieldKey(proto, nameA, a, nameB, b) == TwoFieldKey(proto, nameA, a', nameB, b') ==> a == a' && b == b'
  }

  lemma Shift(name: string, a: string, b: string, a': string, b': string)
    requires Escape(a) + Separator(name) + Escape(b) == Escape(a') + Separator(name) + Escape(b')
    requires |Escape(a)| < |Escape(a')|
    ensures IsEscaped(name + "=")
  {
    var d := |Escape(a')| - |Escape(a)|;
    assert Shifted(Escape(a), Separator(name), Escape(b), Escape(a'), Escape(b'), d);
    if d < |Separator(name)| {
      NearShift(Escape(a), name, Escape(b), Escape(a'), Escape(b'), d);
    } else {
      FarShift(Escape(a), name, Escape(b), Escape(a'), Escape(b'), d);
    }
  }

  lemma KeyTail(proto: string, nameA: string, a: string, nameB: string, b: string)
    ensures TwoFieldKey(proto, nameA, a, nameB, b) ==
            (proto + "|" + nameA + "=") + (Escape(a) + Separator(nameB) + Escape(b))
  {
  }

  lemma SameLength(name: string, a: string, b: string, a': string, b': string)
    requires Escape(a) + Separator(name) + Escape(b) == Escape(a') + Separator(name) + Escape(b')
    requires |Escape(a)| == |Escape(a')|
    ensures a == a' && b == b'
  {
    var n, m := |Escape(a)|, |Separator(name)|;
    var x := Escape(a) + Separator(name) + Escape(b);
    var y := Escape(a') + Separator(name) + Escape(b');
    assert x[..n] == Escape(a) && y[..n] == Escape(a');
    assert x[n + m..] == Escape(b) && y[n + m..] == Escape(b');
    EscapeInjective(a, a');
    EscapeInjective(b, b');
  }

  lemma LeftReading(name: string, u: string)
    requires Escape(u) == name + "="
    ensures Escape("\\") + Separator(name) + Escape("|" + u) == "\\|" + name + "=\\|" + name + "="
  {
    assert Escape("\\") == "\\" + Escape("\\"[1..]);
    assert ("|" + u)[1..] == u;
    assert Escape("|" + u) == "\\|" + (name + "=");
  }

  lemma RightReading(name: string, u: string)
    requires Escape(u) == name + "="
    ensures Escape("|" + u + "\\") + Separator(name) + Escape("") == "\\|" + name + "=\\|" + name + "="
  {
    assert Escape("\\") == "\\" + Escape("\\"[1..]);
    assert ("|" + u)[1..] == u;
    assert Escape("|" + u) == "\\|" + (name + "=");
    SameEnd(u);
    Glue("|" + u, "\\");
  }

  /** Two different pairs of values with one key. */
  lemma Collide(proto: string, nameA: string, nameB: string, u: string)
    requires Escape(u) == nameB + "="
    ensures TwoFieldKey(proto, nameA, "\\", nameB, "|" + u) == TwoFieldKey(proto, nameA, "|" + u + "\\", nameB, "")
  {
    KeyTail(proto, nameA, "\\", nameB, "|" + u);
    KeyTail(proto, nameA, "|" + u + "\\", nameB, "");
    LeftReading(nameB, u);
    RightReading(nameB, u);
  }

  /** Two-field keys are injective in both values exactly when the second field name with its `=`
      could not itself be escaped text. */
  lemma TwoFieldInjectiveExactly(proto: string, nameA: string, nameB: string)
    ensures KeysInjective(proto, nameA, nameB) <==> !IsEscaped(nameB + "=")
  {
    if IsEscaped(nameB + "=") {
      var u :| Escape(u) == nameB + "=";
      Collide(proto, nameA, nameB, u);
      assert |"|" + u + "\\"| > 1;
    } else {
      forall a, b, a', b' | TwoFieldKey(proto, nameA, a, nameB, b) == TwoFieldKey(proto, nameA, a', nameB, b')
        ensures a == a' && b == b'
      {
        KeyTail(proto, nameA, a, nameB, b);
        KeyTail(proto, nameA, a', nameB, b');
        var n := |proto + "|" + nameA + "="|;
        assert TwoFieldKey(proto, nameA, a, nameB, b)[n..] == Escape(a) + Separator(nameB) + Escape(b);
        assert TwoFieldKey(proto, nameA, a', nameB, b')[n..] == Escape(a') + Separator(nameB) + Escape(b');
        Decide(nameB, a, b, a', b');
      }
    }
  }

  lemma Decide(name: string, a: string, b: string, a': string, b': string)
    requires Escape(a) + Separator(name) + Escape(b) == Escape(a') + Separator(name) + Escape(b')
    requires !IsEscaped(name + "=")
    ensures a == a' && b == b'
  {
    if |Escape(a)| < |Escape(a')| {
      Shift(name, a, b, a', b');
    } else if |Escape(a')| < |Escape(a)| {
      Shift(name, a', b', a, b);
    } else {
      SameLength(name, a, b, a', b');
    }
  }

  /** In escaped text a backslash stands before every `=`. */
  lemma {:induction false} EqualsIsGuarded(v: string, i: nat)
    requires i < |Escape(v)| && Escape(v)[i] == '='
    ensures i > 0 && Escape(v)[i - 1] == '\\'
  {
    var n := if StartsWithPair(v) then 2 else 1;
    var m := |Escape(v)| - |Escape(v[n..])|;
    if i >= m {
      assert Escape(v)[i] == Escape(v[n..])[i - m];
      EqualsIsGuarded(v[n..], i - m);
    }
  }

  /** Every second field name in use ends in a letter, so its keys are injective. */
  lemma PlainNamesAreInjective(proto: string, nameA: string, nameB: string)
    requires nameB == "" || nameB[|nameB| - 1] != '\\'
    ensures KeysInjective(proto, nameA, nameB)
  {
    TwoFieldInjectiveExactly(proto, nameA, nameB);
    forall u | Escape(u) == nameB + "="
      ensures false
    {
      EqualsIsGuarded(u, |nameB|);
    }
  }
}
