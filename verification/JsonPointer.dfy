/** JSON documents as trees, and the pointers that select a node of one
    (RFC 6901, sections 3 and 4).

    Valid pointers that do not overlap as text select disjoint nodes: writing
    at one changes nothing at the other, and the writes commute. */
module JsonPointer {
  import opened Prelude
  import opened Encodings

  datatype Value =
    | Null
    | Boolean(flag: bool)
    | Number(number: int)
    | Text(text: Bytes)
    | Array(items: seq<Value>)
    | Object(members: seq<Member>)

  datatype Member = Member(key: Bytes, value: Value)

  const SLASH: byte := 47
  const TILDE: byte := 126
  const ZERO: byte := 48
  const ONE: byte := 49

  // ---- Nodes ---------------------------------------------------------------

  function Place(members: seq<Member>, key: Bytes): (k: nat)
    ensures k <= |members|
    ensures k < |members| ==> members[k].key == key
    ensures forall j :: 0 <= j < k ==> members[j].key != key
  {
    if members == [] then 0 else if members[0].key == key then 0 else 1 + Place(members[1..], key)
  }

  predicate Decimal(s: Bytes) {
    forall k :: 0 <= k < |s| ==> Digit(s[k])
  }

  function Number10(s: Bytes): nat
    requires Decimal(s)
  {
    if s == [] then 0 else 10 * Number10(s[..|s| - 1]) + (s[|s| - 1] as nat - 48)
  }

  /** An array index: digits without a sign or a leading zero. */
  predicate IndexSyntax(token: Bytes) {
    token != [] && Decimal(token) && (token[0] == ZERO ==> |token| == 1)
  }

  /** The position among the children of `v` that `token` names. */
  function Slot(v: Value, token: Bytes): (i: Option<nat>)
    ensures i.Some? ==> (v.Array? && i.value < |v.items|) || (v.Object? && i.value < |v.members|)
  {
    match v
    case Array(items) =>
      if IndexSyntax(token) && Number10(token) < |items| then Some(Number10(token)) else None
    case Object(members) =>
      if Place(members, token) < |members| then Some(Place(members, token)) else None
    case _ => None
  }

  predicate Holds(v: Value, i: nat) {
    (v.Array? && i < |v.items|) || (v.Object? && i < |v.members|)
  }

  function Child(v: Value, i: nat): (c: Value)
    requires Holds(v, i)
    ensures c < v
  {
    if v.Array? then v.items[i] else v.members[i].value
  }

  function WithChild(v: Value, i: nat, c: Value): Value
    requires Holds(v, i)
  {
    if v.Array? then v.(items := v.items[i := c])
    else v.(members := v.members[i := v.members[i].(value := c)])
  }

  /** The node that a list of reference tokens selects. */
  function Get(v: Value, path: seq<Bytes>): Option<Value> {
    if path == [] then Some(v)
    else if Slot(v, path[0]).None? then None
    else Get(Child(v, Slot(v, path[0]).value), path[1..])
  }

  /** The document after the node at `path` has been replaced by `x`. */
  function Put(v: Value, path: seq<Bytes>, x: Value): (r: Option<Value>)
    ensures r.Some? <==> Get(v, path).Some?
    decreases |path|
  {
    if path == [] then Some(x)
    else if Slot(v, path[0]).None? then None
    else
      var i := Slot(v, path[0]).value;
      var c := Put(Child(v, i), path[1..], x);
      if c.None? then None else Some(WithChild(v, i, c.value))
  }

  // ---- Distinct tokens name distinct children ------------------------------

  lemma {:induction false} NumberPositive(s: Bytes)
    requires s != [] && Decimal(s) && s[0] != ZERO
    ensures Number10(s) > 0
    ensures |s| > 1 ==> Number10(s) >= 10
  {
    assert Digit(s[0]);
    if |s| > 1 {
      NumberPositive(s[..|s| - 1]);
    } else {
      assert s[..0] == [];
    }
  }

  lemma {:induction false} NumberInjective(s: Bytes, t: Bytes)
    requires IndexSyntax(s) && IndexSyntax(t) && Number10(s) == Number10(t)
    ensures s == t
  {
    assert Digit(s[|s| - 1]) && Digit(t[|t| - 1]);
    assert s == s[..|s| - 1] + [s[|s| - 1]];
    assert t == t[..|t| - 1] + [t[|t| - 1]];
    if |s| > 1 { NumberPositive(s); }
    if |t| > 1 { NumberPositive(t); }
    if |s| > 1 && |t| > 1 {
      NumberInjective(s[..|s| - 1], t[..|t| - 1]);
    }
  }

  lemma SlotsDiffer(v: Value, a: Bytes, b: Bytes)
    requires a != b && Slot(v, a).Some? && Slot(v, b).Some?
    ensures Slot(v, a).value != Slot(v, b).value
  {
    if v.Array? && Number10(a) == Number10(b) { NumberInjective(a, b); }
  }

  lemma PlaceKept(members: seq<Member>, i: nat, c: Value, token: Bytes)
    requires i < |members|
    ensures Place(members[i := members[i].(value := c)], token) == Place(members, token)
  {
    var s := members[i := members[i].(value := c)];
    assert forall j :: 0 <= j < |s| ==> s[j].key == members[j].key;
  }

  /** Replacing one child keeps the naming of children and every other child. */
  lemma ChildReplaced(v: Value, i: nat, c: Value, token: Bytes)
    requires Holds(v, i)
    ensures Slot(WithChild(v, i, c), token) == Slot(v, token)
    ensures Holds(WithChild(v, i, c), i) && Child(WithChild(v, i, c), i) == c
    ensures forall j: nat :: Holds(v, j) && j != i ==>
      Holds(WithChild(v, i, c), j) && Child(WithChild(v, i, c), j) == Child(v, j)
  {
    if v.Object? { PlaceKept(v.members, i, c, token); }
  }

  lemma ChildTwice(v: Value, i: nat, j: nat, c: Value, d: Value)
    requires Holds(v, i) && Holds(v, j)
    ensures Holds(WithChild(v, i, c), j) && Holds(WithChild(v, j, d), i)
    ensures i == j ==> WithChild(WithChild(v, i, c), j, d) == WithChild(v, j, d)
    ensures i != j ==> WithChild(WithChild(v, i, c), j, d) == WithChild(WithChild(v, j, d), i, c)
  {
    if v.Array? {
      assert i == j ==> v.items[i := c][j := d] == v.items[j := d];
      assert i != j ==> v.items[i := c][j := d] == v.items[j := d][i := c];
    } else {
      var m, n := v.members[i].(value := c), v.members[j].(value := d);
      assert i == j ==> v.members[i := m][j := n] == v.members[j := n];
      assert i != j ==> v.members[i := m][j := n] == v.members[j := n][i := m];
    }
  }

  // ---- Disjoint paths ------------------------------------------------------

  /** Neither path leads to the other's node or into it. */
  predicate Disjoint(p: seq<Bytes>, q: seq<Bytes>) {
    !(p <= q) && !(q <= p)
  }

  lemma DisjointRest(p: seq<Bytes>, q: seq<Bytes>)
    requires Disjoint(p, q)
    ensures p != [] && q != []
    ensures p[0] == q[0] ==> Disjoint(p[1..], q[1..])
  {
    if p[0] == q[0] {
      assert p == [p[0]] + p[1..] && q == [q[0]] + q[1..];
    }
  }

  /** What was written is what is there, */
  lemma {:induction false} PutGet(v: Value, p: seq<Bytes>, x: Value)
    requires Get(v, p).Some?
    ensures Get(Put(v, p, x).value, p) == Some(x)
    decreases |p|
  {
    if p != [] {
      var i := Slot(v, p[0]).value;
      PutGet(Child(v, i), p[1..], x);
      ChildReplaced(v, i, Put(Child(v, i), p[1..], x).value, p[0]);
    }
  }

  /** nothing on a disjoint path has changed, */
  lemma {:induction false} PutElsewhere(v: Value, p: seq<Bytes>, x: Value, q: seq<Bytes>)
    requires Get(v, p).Some? && Disjoint(p, q)
    ensures Get(Put(v, p, x).value, q) == Get(v, q)
    decreases |p|
  {
    DisjointRest(p, q);
    var i := Slot(v, p[0]).value;
    var c := Put(Child(v, i), p[1..], x).value;
    ChildReplaced(v, i, c, q[0]);
    if p[0] == q[0] {
      PutElsewhere(Child(v, i), p[1..], x, q[1..]);
    } else if Slot(v, q[0]).Some? {
      SlotsDiffer(v, p[0], q[0]);
    }
  }

  /** a second write at the same place wins, */
  lemma {:induction false} PutAgain(v: Value, p: seq<Bytes>, x: Value, y: Value)
    requires Get(v, p).Some?
    ensures Get(Put(v, p, x).value, p).Some?
    ensures Put(Put(v, p, x).value, p, y) == Put(v, p, y)
    decreases |p|
  {
    PutGet(v, p, x);
    if p != [] {
      var i := Slot(v, p[0]).value;
      PutAgain(Child(v, i), p[1..], x, y);
      var c := Put(Child(v, i), p[1..], x).value;
      ChildReplaced(v, i, c, p[0]);
      ChildTwice(v, i, i, c, Put(Child(v, i), p[1..], y).value);
    }
  }

  /** One step of a write: descend into the named child, then replace it. */
  lemma PutStep(v: Value, p: seq<Bytes>, x: Value)
    requires p != [] && Get(v, p).Some?
    ensures Slot(v, p[0]).Some? && Holds(v, Slot(v, p[0]).value)
    ensures Get(Child(v, Slot(v, p[0]).value), p[1..]).Some?
    ensures Put(Child(v, Slot(v, p[0]).value), p[1..], x).Some?
    ensures Put(v, p, x) == Some(WithChild(v, Slot(v, p[0]).value, Put(Child(v, Slot(v, p[0]).value), p[1..], x).value))
  {
  }

  /** and writes on disjoint paths commute. */
  lemma {:induction false} PutCommutes(v: Value, p: seq<Bytes>, x: Value, q: seq<Bytes>, y: Value)
    requires Get(v, p).Some? && Get(v, q).Some? && Disjoint(p, q)
    ensures Get(Put(v, p, x).value, q).Some? && Get(Put(v, q, y).value, p).Some?
    ensures Put(Put(v, p, x).value, q, y) == Put(Put(v, q, y).value, p, x)
    decreases |p|
  {
    hide *;
    PutElsewhere(v, p, x, q);
    DisjointSymmetric(p, q);
    PutElsewhere(v, q, y, p);
    DisjointRest(p, q);
    PutStep(v, p, x);
    PutStep(v, q, y);
    var i, j := Slot(v, p[0]).value, Slot(v, q[0]).value;
    var c, d := Put(Child(v, i), p[1..], x).value, Put(Child(v, j), q[1..], y).value;
    var vp, vq := WithChild(v, i, c), WithChild(v, j, d);
    ChildReplaced(v, i, c, q[0]);
    ChildReplaced(v, j, d, p[0]);
    PutStep(vp, q, y);
    PutStep(vq, p, x);
    if p[0] == q[0] {
      PutCommutes(Child(v, i), p[1..], x, q[1..], y);
      ChildTwice(v, i, i, c, Put(c, q[1..], y).value);
      ChildTwice(v, i, i, d, Put(d, p[1..], x).value);
    } else {
      SlotsDiffer(v, p[0], q[0]);
      ChildTwice(v, i, j, c, d);
    }
  }

  lemma DisjointSymmetric(p: seq<Bytes>, q: seq<Bytes>)
    requires Disjoint(p, q)
    ensures Disjoint(q, p)
  {
  }

  // ---- Pointer text --------------------------------------------------------

  /** `text` with every `~` followed by `digit` read as `meant`. */
  function Replaced(s: Bytes, digit: byte, meant: byte): Bytes {
    if s == [] then []
    else if |s| >= 2 && s[0] == TILDE && s[1] == digit then [meant] + Replaced(s[2..], digit, meant)
    else [s[0]] + Replaced(s[1..], digit, meant)
  }

  /** A reference token: `~1` is read before `~0`. */
  function Unescape(s: Bytes): Bytes {
    Replaced(Replaced(s, ONE, SLASH), ZERO, TILDE)
  }

  function Escape(t: Bytes): Bytes {
    if t == [] then []
    else (if t[0] == TILDE then [TILDE, ZERO] else if t[0] == SLASH then [TILDE, ONE] else [t[0]]) + Escape(t[1..])
  }

  /** The length of the part of `s` before its first slash. */
  function Segment(s: Bytes): (k: nat)
    ensures k <= |s|
    ensures k < |s| ==> s[k] == SLASH
    ensures forall j :: 0 <= j < k ==> s[j] != SLASH
  {
    if s == [] || s[0] == SLASH then 0 else 1 + Segment(s[1..])
  }

  /** The reference tokens of a pointer that is empty or starts with a slash. */
  function Tokens(p: Bytes): seq<Bytes>
    requires p == [] || p[0] == SLASH
  {
    if p == [] then []
    else
      var k := Segment(p[1..]);
      [Unescape(p[1..][..k])] + Tokens(p[1..][k..])
  }

  /** The pointer that spells a list of reference tokens. */
  function Spell(tokens: seq<Bytes>): Bytes {
    if tokens == [] then [] else [SLASH] + Escape(tokens[0]) + Spell(tokens[1..])
  }

  /** Each `~` is followed by `0` or `1`. */
  predicate Escaped(s: Bytes) {
    s == [] || (if s[0] == TILDE then |s| >= 2 && s[1] in {ZERO, ONE} && Escaped(s[2..]) else Escaped(s[1..]))
  }

  /** The control characters of Unicode, in UTF-8. */
  predicate ControlAt(s: Bytes, k: nat)
    requires k < |s|
  {
    s[k] < 32 || s[k] == 127 || (s[k] == 194 && k + 1 < |s| && 128 <= s[k + 1] <= 159)
  }

  predicate ValidPointer(p: Bytes) {
    && p != [] && p[0] == SLASH && |p| <= 4096
    && (forall k :: 0 <= k < |p| ==> !ControlAt(p, k))
    && Escaped(p)
  }

  /** The policy's check: one pointer is the other or continues it with a slash. */
  predicate Overlap(left: Bytes, right: Bytes, json: bool) {
    || left == right
    || (json && ((right <= left && left[|right|..] != [] && left[|right|] == SLASH)
                 || (left <= right && right[|left|..] != [] && right[|left|] == SLASH)))
  }

  lemma {:induction false} EscapedSplit(a: Bytes, b: Bytes)
    requires Escaped(a + b) && (b == [] || b[0] == SLASH)
    ensures Escaped(a) && Escaped(b)
    decreases |a|
  {
    if a == [] {
      assert a + b == b;
    } else if a[0] == TILDE {
      assert |a| >= 2;
      assert (a + b)[2..] == a[2..] + b;
      EscapedSplit(a[2..], b);
    } else {
      assert (a + b)[1..] == a[1..] + b;
      EscapedSplit(a[1..], b);
    }
  }

  lemma ReplacedStep(c: byte, rest: Bytes, digit: byte, meant: byte)
    requires c != TILDE
    ensures Replaced([c] + rest, digit, meant) == [c] + Replaced(rest, digit, meant)
  {
    assert ([c] + rest)[1..] == rest;
  }

  lemma ReplacedPair(c: byte, rest: Bytes, digit: byte, meant: byte)
    requires c != TILDE
    ensures Replaced([TILDE, c] + rest, digit, meant)
            == (if c == digit then [meant] else [TILDE, c]) + Replaced(rest, digit, meant)
  {
    var s := [TILDE, c] + rest;
    assert s[2..] == rest;
    if c != digit {
      assert s[1..] == [c] + rest;
      ReplacedStep(c, rest, digit, meant);
      assert [TILDE] + ([c] + Replaced(rest, digit, meant)) == [TILDE, c] + Replaced(rest, digit, meant);
    }
  }

  /** Escaping undoes unescaping of a well-escaped token, so valid tokens that
      read alike are spelled alike. */
  lemma {:induction false} EscapeUnescape(s: Bytes)
    requires Escaped(s) && (forall k :: 0 <= k < |s| ==> s[k] != SLASH)
    ensures Escape(Unescape(s)) == s
    decreases |s|
  {
    hide Replaced;
    if s == [] {
      ReplacedNothing();
    } else if s[0] == TILDE {
      var rest := s[2..];
      EscapeUnescape(rest);
      assert s == [TILDE, s[1]] + rest;
      ReplacedPair(s[1], rest, ONE, SLASH);
      var inner := Replaced(rest, ONE, SLASH);
      if s[1] == ONE {
        ReplacedStep(SLASH, inner, ZERO, TILDE);
        EscapeStep(SLASH, Unescape(rest));
      } else {
        ReplacedPair(ZERO, inner, ZERO, TILDE);
        EscapeStep(TILDE, Unescape(rest));
      }
    } else {
      var rest := s[1..];
      EscapeUnescape(rest);
      assert s == [s[0]] + rest;
      ReplacedStep(s[0], rest, ONE, SLASH);
      ReplacedStep(s[0], Replaced(rest, ONE, SLASH), ZERO, TILDE);
      EscapeStep(s[0], Unescape(rest));
    }
  }

  lemma ReplacedNothing()
    ensures Unescape([]) == []
  {
  }

  lemma EscapeStep(c: byte, rest: Bytes)
    ensures Escape([c] + rest)
            == (if c == TILDE then [TILDE, ZERO] else if c == SLASH then [TILDE, ONE] else [c]) + Escape(rest)
  {
    assert ([c] + rest)[1..] == rest;
  }

  /** A well-escaped pointer can be recovered from its tokens. */
  lemma {:induction false} SpellTokens(p: Bytes)
    requires p == [] || p[0] == SLASH
    requires Escaped(p)
    ensures Spell(Tokens(p)) == p
    decreases |p|
  {
    if p != [] {
      hide Unescape, Escape;
      var rest := p[1..];
      var k := Segment(rest);
      assert rest == rest[..k] + rest[k..];
      assert Escaped(rest);
      EscapedSplit(rest[..k], rest[k..]);
      EscapeUnescape(rest[..k]);
      SpellTokens(rest[k..]);
      assert p == [SLASH] + rest[..k] + rest[k..];
    }
  }

  lemma {:induction false} SpellJoin(a: seq<Bytes>, b: seq<Bytes>)
    ensures Spell(a + b) == Spell(a) + Spell(b)
  {
    if a == [] {
      assert a + b == b;
    } else {
      assert (a + b)[1..] == a[1..] + b;
      SpellJoin(a[1..], b);
      JoinAssociates([SLASH] + Escape(a[0]), Spell(a[1..]), Spell(b));
    }
  }

  lemma SegmentJoin(a: Bytes, b: Bytes)
    requires b == [] || b[0] == SLASH
    ensures Segment(a + b) == Segment(a)
  {
    var s := a + b;
    assert forall j :: 0 <= j < |a| ==> s[j] == a[j];
    assert b != [] ==> s[|a|] == SLASH;
  }

  lemma {:induction false} TokensJoin(a: Bytes, b: Bytes)
    requires a == [] || a[0] == SLASH
    requires b == [] || b[0] == SLASH
    ensures Tokens(a + b) == Tokens(a) + Tokens(b)
    decreases |a|
  {
    if a == [] {
      assert a + b == b;
    } else {
      hide Unescape;
      var rest := a[1..];
      var k := Segment(rest);
      SegmentJoin(rest, b);
      assert (a + b)[1..] == rest + b;
      DropJoin(rest, b, k);
      TokensJoin(rest[k..], b);
      JoinAssociates([Unescape(rest[..k])], Tokens(rest[k..]), Tokens(b));
    }
  }

  /** The textual check decides disjointness of the nodes, for valid pointers. */
  lemma OverlapDecides(p: Bytes, q: Bytes)
    requires ValidPointer(p) && ValidPointer(q)
    ensures Overlap(p, q, true) <==> !Disjoint(Tokens(p), Tokens(q))
  {
    PrefixDecides(p, q);
    PrefixDecides(q, p);
  }

  lemma PrefixDecides(p: Bytes, q: Bytes)
    requires ValidPointer(p) && ValidPointer(q)
    ensures Tokens(p) <= Tokens(q) <==> Leads(p, q)
  {
    hide ControlAt, Escaped, Tokens;
    if Leads(p, q) {
      assert q == p + q[|p|..];
      TokensJoin(p, q[|p|..]);
    }
    if Tokens(p) <= Tokens(q) { PrefixLeads(p, q); }
  }

  /** `q` is `p` or continues it with a slash. */
  predicate Leads(p: Bytes, q: Bytes) {
    p == q || (p < q && q[|p|] == SLASH)
  }

  lemma PrefixLeads(p: Bytes, q: Bytes)
    requires ValidPointer(p) && ValidPointer(q) && Tokens(p) <= Tokens(q)
    ensures Leads(p, q)
  {
    hide ControlAt, Escaped, Tokens;
    SpellTokens(p);
    SpellTokens(q);
    var rest := Tokens(q)[|Tokens(p)|..];
    assert Tokens(q) == Tokens(p) + rest;
    SpellJoin(Tokens(p), rest);
  }

  /** Without the check for stray tildes it would not: `/~` and `/~0` are
      different texts that select one member. */
  lemma StrayTildesCollide()
    ensures !Overlap([SLASH, TILDE], [SLASH, TILDE, ZERO], true)
    ensures Tokens([SLASH, TILDE]) == Tokens([SLASH, TILDE, ZERO])
    ensures !ValidPointer([SLASH, TILDE])
  {
    var p, q := [SLASH, TILDE], [SLASH, TILDE, ZERO];
    assert p[1..] == [TILDE] && q[1..] == [TILDE, ZERO];
    assert Segment([TILDE]) == 1 && Segment([TILDE, ZERO]) == 2;
    assert p[1..][..1] == [TILDE] && p[1..][1..] == [];
    assert q[1..][..2] == [TILDE, ZERO] && q[1..][2..] == [];
    TildeAlone();
    assert !Escaped([TILDE]);
  }

  lemma TildeAlone()
    ensures Unescape([TILDE]) == [TILDE] && Unescape([TILDE, ZERO]) == [TILDE]
  {
    ReplacedNothing();
    assert [TILDE][1..] == [];
    assert Replaced([TILDE], ONE, SLASH) == [TILDE];
    assert [TILDE, ZERO] + [] == [TILDE, ZERO];
    ReplacedPair(ZERO, [], ONE, SLASH);
    ReplacedPair(ZERO, [], ZERO, TILDE);
  }
}
