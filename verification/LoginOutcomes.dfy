/** What a login body has to contain, what is sent and what an observer sees, node
    by node. */
module LoginOutcomes {
  import opened Prelude
  import opened Encodings
  import opened JsonPointer
  import opened Login
  import F = Forms

  // ---- Nodes ---------------------------------------------------------------

  const DIGITS: Bytes := [48, 49, 50, 51, 52, 53, 54, 55, 56, 57]

  function DecimalOf(n: nat): Bytes {
    if n < 10 then [DIGITS[n]] else DecimalOf(n / 10) + [DIGITS[n % 10]]
  }

  lemma DigitIs(d: nat)
    requires d < 10
    ensures Digit(DIGITS[d]) && DIGITS[d] as nat == 48 + d && (DIGITS[d] == ZERO <==> d == 0)
  {
    if d == 0 {} else if d == 1 {} else if d == 2 {} else if d == 3 {} else if d == 4 {}
    else if d == 5 {} else if d == 6 {} else if d == 7 {} else if d == 8 {} else {}
  }

  lemma {:induction false} DecimalIs(n: nat)
    ensures Decimal(DecimalOf(n)) && Number10(DecimalOf(n)) == n && DecimalOf(n) != []
    ensures DecimalOf(n)[0] == ZERO ==> n == 0
  {
    hide Digit;
    DigitIs(n % 10);
    if n < 10 {
      NumberMore([], DIGITS[n]);
    } else {
      DecimalIs(n / 10);
      NumberMore(DecimalOf(n / 10), DIGITS[n % 10]);
    }
  }

  lemma NumberMore(front: Bytes, last: byte)
    requires Decimal(front) && Digit(last)
    ensures Decimal(front + [last]) && Number10(front + [last]) == 10 * Number10(front) + (last as nat - 48)
    ensures Decimal([]) && Number10([]) == 0 && [] + [last] == [last]
  {
    hide Digit;
    assert (front + [last])[..|front|] == front;
  }

  /** A token names element `i` of an array exactly if it is `i` in decimal, without
      a sign or a leading zero, and a member of an object exactly if it is its key. */
  lemma SlotExactly(v: Value, token: Bytes, i: nat)
    ensures v.Array? ==> (Slot(v, token) == Some(i) <==> i < |v.items| && token == DecimalOf(i))
    ensures v.Object? ==>
              (Slot(v, token) == Some(i) <==>
                 i < |v.members| && v.members[i].key == token && forall j :: 0 <= j < i ==> v.members[j].key != token)
    ensures !v.Array? && !v.Object? ==> Slot(v, token).None?
  {
    hide Place, Number10;
    if v.Array? {
      DecimalIs(i);
      SmallIndex(i);
      if IndexSyntax(token) && Number10(token) == i { NumberInjective(token, DecimalOf(i)); }
    }
  }

  lemma SmallIndex(n: nat)
    ensures IndexSyntax(DecimalOf(n))
  {
    DecimalIs(n);
    if n >= 10 { assert DecimalOf(n)[0] != ZERO; }
  }

  /** A key is written with `~0` for a tilde and `~1` for a slash, and otherwise as
      it is; */
  lemma EscapeOf(t: Bytes)
    ensures Escape([126]) == [126, 48] && Escape([47]) == [126, 49]
    ensures t != [] ==> Escape(t) == Escape([t[0]]) + Escape(t[1..])
    ensures t != [] && t[0] != 126 && t[0] != 47 ==> Escape([t[0]]) == [t[0]]
  {
    EscapeStep(126, []);
    EscapeStep(47, []);
    if t != [] {
      EscapeStep(t[0], []);
      EscapeStep(t[0], t[1..]);
      assert t == [t[0]] + t[1..];
    }
  }

  /** The key once its `~1` have been read. */
  function Half(t: Bytes): Bytes {
    if t == [] then [] else (if t[0] == TILDE then [TILDE, ZERO] else [t[0]]) + Half(t[1..])
  }

  lemma {:induction false} FirstRead(t: Bytes)
    ensures Replaced(Escape(t), ONE, SLASH) == Half(t)
    ensures forall k :: 0 <= k < |Escape(t)| ==> Escape(t)[k] != 47
  {
    if t != [] {
      hide Replaced;
      FirstRead(t[1..]);
      var rest := Escape(t[1..]);
      if t[0] == TILDE {
        ReplacedPair(ZERO, rest, ONE, SLASH);
      } else if t[0] == SLASH {
        ReplacedPair(ONE, rest, ONE, SLASH);
      } else {
        ReplacedStep(t[0], rest, ONE, SLASH);
      }
    }
  }

  lemma {:induction false} SecondRead(t: Bytes)
    ensures Replaced(Half(t), ZERO, TILDE) == t
  {
    if t != [] {
      hide Replaced;
      SecondRead(t[1..]);
      var rest := Half(t[1..]);
      if t[0] == TILDE {
        ReplacedPair(ZERO, rest, ZERO, TILDE);
      } else {
        ReplacedStep(t[0], rest, ZERO, TILDE);
      }
      assert [t[0]] + t[1..] == t;
    }
  }

  /** and the pointer so written names just that key. */
  lemma PointerNames(t: Bytes)
    ensures Tokens([47] + Escape(t)) == [t]
  {
    hide Replaced;
    FirstRead(t);
    SecondRead(t);
    OneToken(Escape(t));
  }

  lemma OneToken(s: Bytes)
    requires forall k :: 0 <= k < |s| ==> s[k] != 47
    ensures Tokens([47] + s) == [Unescape(s)]
  {
    hide Unescape;
    var p := [47] + s;
    assert p[1..] == s && Segment(s) == |s|;
    assert s[..|s|] == s && s[|s|..] == [];
  }

  // ---- Reserved texts ------------------------------------------------------

  /** The node that a list of positions reaches. */
  function NodeAt(v: Value, path: seq<nat>): Option<Value>
    decreases |path|
  {
    if path == [] then Some(v) else if Holds(v, path[0]) then NodeAt(Child(v, path[0]), path[1..]) else None
  }

  /** `t` is a text somewhere in the tree, or the key of a member. */
  ghost predicate Written(v: Value, t: Bytes) {
    exists path :: WrittenAt(v, path, t)
  }

  predicate WrittenAt(v: Value, path: seq<nat>, t: Bytes) {
    var node := NodeAt(v, path);
    node.Some? && (node.value == Text(t) || (node.value.Object? && exists i :: 0 <= i < |node.value.members| && node.value.members[i].key == t))
  }

  ghost predicate Occurring(c: Content, t: Bytes) {
    match c
    case Form(fields) => exists i :: 0 <= i < |fields| && (fields[i].name == t || fields[i].value == t)
    case Json(value) => Written(value, t)
  }

  /** Somewhere in `t` a placeholder starts: "aap_pw1_", "aap_un1_" or "aap_cs1_". */
  predicate HasStart(t: Bytes) {
    exists k :: 0 <= k <= |t| && StartAt(t, k)
  }

  predicate StartAt(t: Bytes, k: nat)
    requires k <= |t|
  {
    k <= |t| - 8 && IsStart(t[k..k + 8])
  }

  predicate IsStart(s: Bytes) {
    || s == [97, 97, 112, 95, 112, 119, 49, 95] || s == [97, 97, 112, 95, 117, 110, 49, 95] || s == [97, 97, 112, 95, 99, 115, 49, 95]
  }

  lemma StartIsReserved(t: Bytes)
    ensures Reserved(t) <==> HasStart(t)
  {
    forall k, part: Bytes | 0 <= k <= |t| && |part| == 8 ensures StartsWith(t, k, part) <==> k <= |t| - 8 && t[k..k + 8] == part {
      if part <= t[k..] { assert t[k..][..8] == t[k..k + 8]; }
      if k <= |t| - 8 { assert t[k..][..8] == t[k..k + 8]; }
    }
    if HasStart(t) {
      var k :| 0 <= k <= |t| && StartAt(t, k);
      assert StartsWith(t, k, t[k..k + 8]);
    }
    if Contains(t, PASSWORD_PREFIX) { ContainedStart(t, PASSWORD_PREFIX); }
    if Contains(t, USERNAME_PREFIX) { ContainedStart(t, USERNAME_PREFIX); }
    if Contains(t, CSRF_PREFIX) { ContainedStart(t, CSRF_PREFIX); }
  }

  lemma ContainedStart(t: Bytes, part: Bytes)
    requires Contains(t, part) && IsStart(part)
    ensures HasStart(t)
  {
    var k :| 0 <= k <= |t| && StartsWith(t, k, part);
    assert t[k..k + 8] == part;
    assert StartAt(t, k);
  }

  lemma {:induction false} ReservedBelow(v: Value, path: seq<nat>, t: Bytes)
    requires WrittenAt(v, path, t) && Reserved(t)
    ensures JsonReserved(v)
    decreases |path|
  {
    hide Reserved;
    if path != [] { ReservedBelow(Child(v, path[0]), path[1..], t); }
  }

  lemma Deeper(v: Value, i: nat, path: seq<nat>, t: Bytes)
    requires Holds(v, i) && WrittenAt(Child(v, i), path, t)
    ensures WrittenAt(v, [i] + path, t)
  {
    assert ([i] + path)[1..] == path;
  }

  lemma {:induction false} ReservedSomewhere(v: Value) returns (path: seq<nat>, t: Bytes)
    requires JsonReserved(v)
    ensures WrittenAt(v, path, t) && Reserved(t)
    decreases v
  {
    hide Reserved;
    match v
    case Text(text) =>
      path, t := [], text;
    case Array(items) =>
      var i :| 0 <= i < |items| && JsonReserved(items[i]);
      path, t := ReservedSomewhere(items[i]);
      Deeper(v, i, path, t);
      path := [i] + path;
    case Object(members) =>
      var i :| 0 <= i < |members| && (Reserved(members[i].key) || JsonReserved(members[i].value));
      if Reserved(members[i].key) {
        path, t := [], members[i].key;
      } else {
        path, t := ReservedSomewhere(members[i].value);
        Deeper(v, i, path, t);
        path := [i] + path;
      }
  }

  /** A document is reserved exactly if a placeholder starts in one of its texts,
      names or keys, at whatever depth. */
  lemma ReservedExactly(c: Content)
    ensures HasReserved(c) <==> exists t :: Occurring(c, t) && HasStart(t)
  {
    hide Reserved, HasStart, JsonReserved, WrittenAt;
    forall t ensures Reserved(t) <==> HasStart(t) { StartIsReserved(t); }
    match c
    case Form(fields) =>
      if i :| 0 <= i < |fields| && FieldReserved(fields[i]) {
        assert Occurring(c, fields[i].name) && Occurring(c, fields[i].value);
      }
    case Json(value) =>
      if JsonReserved(value) {
        var path, t := ReservedSomewhere(value);
        assert Occurring(c, t);
      }
      if t :| Occurring(c, t) && HasStart(t) {
        var path :| WrittenAt(value, path, t);
        ReservedBelow(value, path, t);
      }
  }

  // ---- Bodies --------------------------------------------------------------

  /** A body becomes a document exactly if it is not too large, the profile hides the
      user name, and the media type is the profile's and the body of that type. */
  lemma DocumentExactly(p: Profile, media: MediaType, body: Bytes, syntax: Syntax)
    ensures var d := DocumentOf(p, media, body, syntax);
            && (d.Ok? <==>
                  && |body| <= 262144 && !p.usernameVisible
                  && (|| (p.kind == FormKind && media == FormType && F.Parsed(body).Ok?)
                      || (p.kind == JsonKind && media == JsonType && syntax.read(body).Some?)))
            && (d.Ok? && p.kind == FormKind ==> d.value == Form(F.Parsed(body).value))
            && (d.Ok? && p.kind == JsonKind ==> d.value == Json(syntax.read(body).value))
  {
    hide F.Parsed;
  }

  /** `q` names no node that a login writes, nor one above or below it. */
  predicate Unselected(p: Profile, q: Bytes) {
    var json := p.kind == JsonKind;
    && Apart(p.username, q, json) && Apart(p.password, q, json)
    && (p.submit.Some? ==> Apart(p.submit.value, q, json))
  }

  /** `d` holds `username`, `password` and `token` where the profile says, and agrees
      with `c` wherever it selects nothing. */
  ghost predicate HoldsLogin(p: Profile, c: Content, d: Content, username: Bytes, password: Bytes, token: Option<Bytes>) {
    && Read(d, p.username) == Some(Text(username)) && Read(d, p.password) == Some(Text(password))
    && (p.submit.Some? && token.Some? ==> Read(d, p.submit.value) == Some(Text(token.value)))
    && forall q :: Unselected(p, q) ==> Read(d, q) == Read(c, q)
  }

  lemma Holding(p: Profile, c: Content, names: Placeholders, t: Option<CsrfToken>, edits: seq<Edit>, username: Bytes, password: Bytes, token: Option<Bytes>)
    requires Admitted(p) && c.Json? == (p.kind == JsonKind) && Validated(p, c, names, t).Ok?
    requires edits == Edits(p, Some(username), Some(password), token) && p.submit.Some? == token.Some?
    ensures Fill(Validated(p, c, names, t).value, edits).Some?
    ensures HoldsLogin(p, c, Fill(Validated(p, c, names, t).value, edits).value, username, password, token)
  {
    hide Validated, Fill, Read, Admitted, Apart, AllApart, Addresses;
    SubstitutionMeaning(p, c, names, t, edits);
    FillReads(c, edits, 0);
    FillReads(c, edits, 1);
    if p.submit.Some? { FillReads(c, edits, 2); }
    forall q | Unselected(p, q) ensures Read(Fill(c, edits).value, q) == Read(c, q) {
      FillElsewhere(c, edits, q);
    }
  }

  /** A body is only accepted with each placeholder in its own place. */
  lemma AcceptedHolds(p: Profile, c: Content, names: Placeholders, token: Option<CsrfToken>)
    requires Admitted(p) && c.Json? == (p.kind == JsonKind) && Validated(p, c, names, token).Ok?
    ensures Read(c, p.username) == Some(Text(names.username)) && Read(c, p.password) == Some(Text(names.password))
    ensures p.submit.Some? <==> token.Some?
    ensures token.Some? ==> Read(c, p.submit.value) == Some(Text(token.value.placeholder))
  {
    hide Validated, Read, Admitted, Fill, HasReserved;
    AcceptsExactly(p, c, names, token);
    var w := Expected(p, names, token);
    assert w[0].text.Some? && w[1].text.Some?;
    if token.Some? { assert w[2].text.Some?; }
  }

  /** What is sent holds the user name, the password and the token each in its own
      place, and what is observed "[redacted]" in the same places; both agree with the
      sender's document wherever else one looks. */
  lemma SentAndSeen(p: Profile, c: Content, names: Placeholders, token: Option<CsrfToken>, username: Bytes, password: Bytes)
    requires Admitted(p) && c.Json? == (p.kind == JsonKind) && Validated(p, c, names, token).Ok?
    ensures var d := Validated(p, c, names, token).value;
            && Fill(d, Secrets(p, username, password, token)).Some? && Fill(d, Masks(p)).Some?
            && HoldsLogin(p, c, Fill(d, Secrets(p, username, password, token)).value, username, password,
                          if token.Some? then Some(token.value.value) else None)
            && var mask: Bytes := [91, 114, 101, 100, 97, 99, 116, 101, 100, 93];
               HoldsLogin(p, c, Fill(d, Masks(p)).value, mask, mask, if token.Some? then Some(mask) else None)
  {
    hide Validated, Fill, Read, Admitted, HoldsLogin;
    AcceptedHolds(p, c, names, token);
    Holding(p, c, names, token, Secrets(p, username, password, token), username, password, if token.Some? then Some(token.value.value) else None);
    MasksAre(p);
    Holding(p, c, names, token, Masks(p), MASK, MASK, if p.submit.Some? then Some(MASK) else None);
  }

  lemma MasksAre(p: Profile)
    ensures Masks(p) == Edits(p, Some(MASK), Some(MASK), if p.submit.Some? then Some(MASK) else None)
  {
  }
}
