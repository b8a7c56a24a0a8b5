/** Login substitution: a login body is validated against its placeholders, and
    only then are the credentials written into it.

    A valid profile's selectors address different nodes, so every write
    succeeds, the order of the writes does not matter and everything that is
    not selected keeps its meaning. What an observer sees is the private body
    with the selected nodes masked, whatever the credentials are. */
module Login {
  import opened Prelude
  import opened Encodings
  import opened JsonPointer
  import F = Forms

  const MAX_BODY: nat := 262144

  // ---- Documents -----------------------------------------------------------

  datatype Content = Form(fields: seq<F.Field>) | Json(value: Value)

  /** The syntax of JSON texts, which this model leaves open. */
  datatype Syntax = Syntax(read: Bytes -> Option<Value>, write: Value -> Bytes)

  predicate PointerSyntax(p: Bytes) {
    p == [] || p[0] == SLASH
  }

  function PlaceOf(fields: seq<F.Field>, name: Bytes): (k: nat)
    ensures k <= |fields|
    ensures k < |fields| ==> fields[k].name == name
    ensures forall j :: 0 <= j < k ==> fields[j].name != name
  {
    if fields == [] || fields[0].name == name then 0 else 1 + PlaceOf(fields[1..], name)
  }

  /** The node that a selector addresses. */
  function Read(c: Content, selector: Bytes): Option<Value> {
    match c
    case Form(fields) =>
      var k := PlaceOf(fields, selector);
      if k < |fields| then Some(Text(fields[k].value)) else None
    case Json(value) =>
      if PointerSyntax(selector) then Get(value, Tokens(selector)) else None
  }

  /** What is written at a selector: a text, or nothing. */
  function Leaf(c: Content, text: Option<Bytes>): Value {
    match text
    case Some(t) => Text(t)
    case None => if c.Form? then Text([]) else Null
  }

  function Write(c: Content, selector: Bytes, text: Option<Bytes>): (r: Option<Content>)
    ensures r.Some? <==> Read(c, selector).Some?
    ensures r.Some? ==> r.value.Form? == c.Form?
  {
    match c
    case Form(fields) =>
      var k := PlaceOf(fields, selector);
      if k < |fields| then Some(Form(fields[k := fields[k].(value := Leaf(c, text).text)])) else None
    case Json(value) =>
      if PointerSyntax(selector) then
        match Put(value, Tokens(selector), Leaf(c, text))
        case Some(v) => Some(Json(v))
        case None => None
      else None
  }

  /** Two selectors that the policy admits together. */
  predicate Apart(a: Bytes, b: Bytes, json: bool) {
    (json ==> ValidPointer(a) && ValidPointer(b)) && !Overlap(a, b, json)
  }

  lemma ApartSymmetric(a: Bytes, b: Bytes, json: bool)
    requires Apart(a, b, json)
    ensures Apart(b, a, json)
  {
    hide ValidPointer;
  }

  lemma FieldReplaced(fields: seq<F.Field>, k: nat, v: Bytes, name: Bytes)
    requires k < |fields|
    ensures PlaceOf(fields[k := fields[k].(value := v)], name) == PlaceOf(fields, name)
  {
    var s := fields[k := fields[k].(value := v)];
    assert forall j :: 0 <= j < |s| ==> s[j].name == fields[j].name;
  }

  lemma FieldTwice(fields: seq<F.Field>, i: nat, j: nat, v: Bytes, w: Bytes)
    requires i < |fields| && j < |fields|
    ensures var m, n := fields[i].(value := v), fields[j].(value := w);
            if i == j then fields[i := m][j := n] == fields[j := n] else fields[i := m][j := n] == fields[j := n][i := m]
  {
    var m, n := fields[i].(value := v), fields[j].(value := w);
    if i == j {
      assert fields[i := m][j := n] == fields[j := n];
    } else {
      assert fields[i := m][j := n] == fields[j := n][i := m];
    }
  }

  lemma WriteRead(c: Content, s: Bytes, t: Option<Bytes>)
    requires Read(c, s).Some?
    ensures Read(Write(c, s, t).value, s) == Some(Leaf(c, t))
  {
    match c
    case Form(fields) => FieldReplaced(fields, PlaceOf(fields, s), Leaf(c, t).text, s);
    case Json(value) => PutGet(value, Tokens(s), Leaf(c, t));
  }

  lemma WriteElsewhere(c: Content, s: Bytes, t: Option<Bytes>, q: Bytes)
    requires Read(c, s).Some? && Apart(s, q, c.Json?)
    ensures Read(Write(c, s, t).value, q) == Read(c, q)
  {
    match c
    case Form(fields) => FieldReplaced(fields, PlaceOf(fields, s), Leaf(c, t).text, q);
    case Json(value) =>
      OverlapDecides(s, q);
      PutElsewhere(value, Tokens(s), Leaf(c, t), Tokens(q));
  }

  lemma WriteAgain(c: Content, s: Bytes, t: Option<Bytes>, u: Option<Bytes>)
    requires Read(c, s).Some?
    ensures Write(Write(c, s, t).value, s, u) == Write(c, s, u)
  {
    match c
    case Form(fields) =>
      var k := PlaceOf(fields, s);
      FieldReplaced(fields, k, Leaf(c, t).text, s);
      FieldTwice(fields, k, k, Leaf(c, t).text, Leaf(c, u).text);
    case Json(value) => PutAgain(value, Tokens(s), Leaf(c, t), Leaf(c, u));
  }

  lemma WriteCommutes(c: Content, s: Bytes, t: Option<Bytes>, q: Bytes, u: Option<Bytes>)
    requires Read(c, s).Some? && Read(c, q).Some? && Apart(s, q, c.Json?)
    ensures Write(c, s, t).Some? && Write(c, q, u).Some?
    ensures Write(Write(c, s, t).value, q, u) == Write(Write(c, q, u).value, s, t)
  {
    match c
    case Form(fields) => FormCommutes(fields, s, Leaf(c, t).text, q, Leaf(c, u).text);
    case Json(value) =>
      OverlapDecides(s, q);
      PutCommutes(value, Tokens(s), Leaf(c, t), Tokens(q), Leaf(c, u));
  }

  lemma FormCommutes(fields: seq<F.Field>, s: Bytes, v: Bytes, q: Bytes, w: Bytes)
    requires PlaceOf(fields, s) < |fields| && PlaceOf(fields, q) < |fields| && s != q
    ensures var i, j := PlaceOf(fields, s), PlaceOf(fields, q);
            var a, b := fields[i := fields[i].(value := v)], fields[j := fields[j].(value := w)];
            && PlaceOf(a, q) == j && PlaceOf(b, s) == i && i != j
            && a[j := a[j].(value := w)] == b[i := b[i].(value := v)]
  {
    var i, j := PlaceOf(fields, s), PlaceOf(fields, q);
    FieldReplaced(fields, i, v, q);
    FieldReplaced(fields, j, w, s);
    FieldTwice(fields, i, j, v, w);
  }

  // ---- Several writes ------------------------------------------------------

  datatype Edit = Edit(selector: Bytes, text: Option<Bytes>)

  /** All writes of a list, in order. */
  function Fill(c: Content, edits: seq<Edit>): Option<Content>
    decreases |edits|
  {
    if edits == [] then Some(c)
    else
      var d := Write(c, edits[0].selector, edits[0].text);
      if d.None? then None else Fill(d.value, edits[1..])
  }

  predicate AllApart(edits: seq<Edit>, json: bool) {
    forall i, j :: 0 <= i < j < |edits| ==> Apart(edits[i].selector, edits[j].selector, json)
  }

  /** The documents in which every selector of the list addresses a node. */
  predicate Addresses(c: Content, edits: seq<Edit>) {
    forall i :: 0 <= i < |edits| ==> Read(c, edits[i].selector).Some?
  }

  predicate SameSelectors(a: seq<Edit>, b: seq<Edit>) {
    |a| == |b| && forall i :: 0 <= i < |a| ==> a[i].selector == b[i].selector
  }

  lemma FillStep(c: Content, edits: seq<Edit>)
    requires edits != [] && AllApart(edits, c.Json?) && Addresses(c, edits)
    ensures Write(c, edits[0].selector, edits[0].text).Some?
    ensures var d := Write(c, edits[0].selector, edits[0].text).value;
            && d.Json? == c.Json? && AllApart(edits[1..], d.Json?) && Addresses(d, edits[1..])
            && Fill(c, edits) == Fill(d, edits[1..])
  {
    hide Write, Read, Apart;
    var d := Write(c, edits[0].selector, edits[0].text).value;
    forall i | 0 <= i < |edits[1..]| ensures Read(d, edits[1..][i].selector).Some? {
      WriteElsewhere(c, edits[0].selector, edits[0].text, edits[i + 1].selector);
    }
  }

  /** Writes at admitted selectors all succeed and leave every node that is
      apart from them as it was. */
  lemma {:induction false} FillElsewhere(c: Content, edits: seq<Edit>, q: Bytes)
    requires AllApart(edits, c.Json?) && Addresses(c, edits)
    requires forall i :: 0 <= i < |edits| ==> Apart(edits[i].selector, q, c.Json?)
    ensures Fill(c, edits).Some? && Read(Fill(c, edits).value, q) == Read(c, q)
    ensures Fill(c, edits).value.Json? == c.Json?
    decreases |edits|
  {
    if edits != [] {
      hide Write, Read, Apart, AllApart, Addresses;
      FillStep(c, edits);
      WriteElsewhere(c, edits[0].selector, edits[0].text, q);
      FillElsewhere(Write(c, edits[0].selector, edits[0].text).value, edits[1..], q);
    }
  }

  lemma {:induction false} FillSucceeds(c: Content, edits: seq<Edit>)
    requires AllApart(edits, c.Json?) && Addresses(c, edits)
    ensures Fill(c, edits).Some? && Fill(c, edits).value.Json? == c.Json?
    decreases |edits|
  {
    if edits != [] {
      hide Write, Read, Apart, AllApart, Addresses;
      FillStep(c, edits);
      FillSucceeds(Write(c, edits[0].selector, edits[0].text).value, edits[1..]);
    }
  }

  /** Each selected node holds what was written there. */
  lemma {:induction false} FillReads(c: Content, edits: seq<Edit>, k: nat)
    requires AllApart(edits, c.Json?) && Addresses(c, edits) && k < |edits|
    ensures Fill(c, edits).Some?
    ensures Read(Fill(c, edits).value, edits[k].selector) == Some(Leaf(c, edits[k].text))
    decreases |edits|
  {
    hide Write, Read, Apart, Addresses;
    FillStep(c, edits);
    var d := Write(c, edits[0].selector, edits[0].text).value;
    if k == 0 {
      AddressedAt(c, edits, 0);
      forall i | 0 <= i < |edits[1..]| ensures Apart(edits[1..][i].selector, edits[0].selector, d.Json?) {
        ApartSymmetric(edits[0].selector, edits[i + 1].selector, c.Json?);
      }
      FillElsewhere(d, edits[1..], edits[0].selector);
      WriteRead(c, edits[0].selector, edits[0].text);
    } else {
      FillReads(d, edits[1..], k - 1);
    }
  }

  lemma AddressedAt(c: Content, edits: seq<Edit>, k: nat)
    requires Addresses(c, edits) && k < |edits|
    ensures Read(c, edits[k].selector).Some?
  {
  }

  /** A write apart from a list of writes may come before or after them, so the
      order of admitted writes is irrelevant. */
  lemma {:induction false} FillCommutes(c: Content, edits: seq<Edit>, e: Edit)
    requires AllApart([e] + edits, c.Json?) && Addresses(c, [e] + edits)
    ensures Fill(c, edits).Some? && Fill(c, [e] + edits).Some?
    ensures Write(Fill(c, edits).value, e.selector, e.text) == Fill(c, [e] + edits)
    decreases |edits|
  {
    var all := [e] + edits;
    assert all[0] == e && all[1..] == edits;
    FillStep(c, all);
    if edits != [] {
      WithoutFirst(all, c);
      FillStep(c, edits);
      var f := edits[0];
      var d, g := Write(c, f.selector, f.text).value, Write(c, e.selector, e.text).value;
      CommuteStep(c, edits, e);
      FillCommutes(d, edits[1..], e);
      var later := [e] + edits[1..];
      assert later[0] == e && later[1..] == edits[1..];
      FillStep(d, later);
      FillStep(g, edits);
      hide *;
    }
  }

  lemma WithoutFirst(edits: seq<Edit>, c: Content)
    requires edits != [] && AllApart(edits, c.Json?) && Addresses(c, edits)
    ensures AllApart(edits[1..], c.Json?) && Addresses(c, edits[1..])
  {
    hide Apart, Read;
  }

  lemma CommuteStep(c: Content, edits: seq<Edit>, e: Edit)
    requires edits != [] && AllApart([e] + edits, c.Json?) && Addresses(c, [e] + edits)
    ensures var f := edits[0];
            && Write(c, e.selector, e.text).Some? && Write(c, f.selector, f.text).Some?
            && var d := Write(c, f.selector, f.text).value;
            && d.Json? == c.Json?
            && AllApart([e] + edits[1..], d.Json?) && Addresses(d, [e] + edits[1..])
            && Write(Write(c, e.selector, e.text).value, f.selector, f.text) == Write(d, e.selector, e.text)
  {
    hide Write, Read, Apart;
    var all := [e] + edits;
    var f := edits[0];
    assert all[0] == e && all[1] == f;
    var d := Write(c, f.selector, f.text).value;
    WriteCommutes(c, e.selector, e.text, f.selector, f.text);
    var later := [e] + edits[1..];
    forall i, j | 0 <= i < j < |later| ensures Apart(later[i].selector, later[j].selector, d.Json?) {
      assert later[j] == all[j + 1] && later[i] == all[if i == 0 then 0 else i + 1];
    }
    forall i | 0 <= i < |later| ensures Read(d, later[i].selector).Some? {
      assert later[i] == all[if i == 0 then 0 else i + 1];
      if i == 0 { ApartSymmetric(e.selector, f.selector, c.Json?); }
      WriteElsewhere(c, f.selector, f.text, later[i].selector);
    }
  }

  /** A second round of writes hides the first one entirely. */
  lemma {:induction false} FillAgain(c: Content, first: seq<Edit>, second: seq<Edit>)
    requires AllApart(first, c.Json?) && Addresses(c, first) && SameSelectors(first, second)
    ensures Fill(c, first).Some?
    ensures Fill(Fill(c, first).value, second) == Fill(c, second)
    decreases |first|
  {
    if first != [] {
      hide Write, Read, Apart, AllApart, Addresses;
      var s, t, u := first[0].selector, first[0].text, second[0].text;
      FillStep(c, first);
      var d := Write(c, s, t).value;
      AddressedAt(c, first, 0);
      WriteAgain(c, s, t, u);
      WriteRead(c, s, t);
      var e := Edit(s, u);
      var swapped := [e] + first[1..];
      Resumed(c, d, first, e);
      FillCommutes(d, first[1..], e);
      FillStep(d, swapped);
      assert swapped[0] == e && swapped[1..] == first[1..];
      var h := Write(c, s, u).value;
      FillAgain(h, first[1..], second[1..]);
      assert second[0] == e;
    }
  }

  lemma Resumed(c: Content, d: Content, edits: seq<Edit>, e: Edit)
    requires edits != [] && AllApart(edits, c.Json?) && c.Json? == d.Json? && e.selector == edits[0].selector
    requires Addresses(d, edits[1..]) && Read(d, e.selector).Some?
    ensures AllApart([e] + edits[1..], d.Json?) && Addresses(d, [e] + edits[1..])
  {
    hide Read, Apart;
    var later := [e] + edits[1..];
    assert forall i :: 0 <= i < |later| ==> later[i].selector == edits[i].selector;
    forall i | 0 <= i < |later| ensures Read(d, later[i].selector).Some? {
      if i > 0 { assert later[i] == edits[1..][i - 1]; }
    }
  }

  // ---- Validation ----------------------------------------------------------

  datatype BodyKind = FormKind | JsonKind

  datatype MediaType = FormType | JsonType | OtherType

  /** The parts of a login profile that substitution reads. */
  datatype Profile = Profile(usernameVisible: bool, kind: BodyKind, username: Bytes, password: Bytes, submit: Option<Bytes>)

  datatype CsrfToken = CsrfToken(placeholder: Bytes, value: Bytes)

  datatype Placeholders = Placeholders(username: Bytes, password: Bytes)

  predicate SelectorValid(s: Bytes, json: bool) {
    && 0 < |s| <= 256 && (forall k :: 0 <= k < |s| ==> !ControlAt(s, k))
    && (json ==> ValidPointer(s))
  }

  /** The policy's rules for the selectors of a profile. */
  predicate Admitted(p: Profile) {
    var json := p.kind == JsonKind;
    && SelectorValid(p.username, json) && SelectorValid(p.password, json)
    && !Overlap(p.username, p.password, json)
    && (p.submit.Some? ==>
          && SelectorValid(p.submit.value, json)
          && !Overlap(p.submit.value, p.username, json) && !Overlap(p.submit.value, p.password, json))
  }

  /** The edits of a login: user name, password and, if there is one, the token. */
  function Edits(p: Profile, username: Option<Bytes>, password: Option<Bytes>, token: Option<Bytes>): seq<Edit> {
    [Edit(p.username, username), Edit(p.password, password)]
    + (if p.submit.Some? then [Edit(p.submit.value, token)] else [])
  }

  lemma EditsApart(p: Profile, username: Option<Bytes>, password: Option<Bytes>, token: Option<Bytes>)
    requires Admitted(p)
    ensures AllApart(Edits(p, username, password, token), p.kind == JsonKind)
  {
    hide ValidPointer, ControlAt;
    var e := Edits(p, username, password, token);
    assert p.submit.Some? ==> e[2].selector == p.submit.value;
  }

  /** Checks that a selector holds its placeholder, and clears it. */
  function Taken(c: Content, selector: Bytes, expected: Bytes): (r: Result<Content>)
    ensures r.Ok? ==> r.value.Json? == c.Json?
  {
    if selector == [] || (c.Json? && selector[0] != SLASH) then Err(RequestInvalid)
    else if Read(c, selector) == Some(Text(expected)) then Ok(Write(c, selector, None).value)
    else Err(PlaceholderInvalid)
  }

  predicate StartsWith(s: Bytes, k: nat, prefix: Bytes) {
    k <= |s| && prefix <= s[k..]
  }

  predicate Contains(s: Bytes, part: Bytes) {
    exists k :: 0 <= k <= |s| && StartsWith(s, k, part)
  }

  const PASSWORD_PREFIX: Bytes := [97, 97, 112, 95, 112, 119, 49, 95]
  const USERNAME_PREFIX: Bytes := [97, 97, 112, 95, 117, 110, 49, 95]
  const CSRF_PREFIX: Bytes := [97, 97, 112, 95, 99, 115, 49, 95]

  /** A text that contains the start of a placeholder. */
  predicate Reserved(s: Bytes) {
    Contains(s, PASSWORD_PREFIX) || Contains(s, USERNAME_PREFIX) || Contains(s, CSRF_PREFIX)
  }

  predicate JsonReserved(v: Value) {
    match v
    case Text(t) => Reserved(t)
    case Array(items) => exists i :: 0 <= i < |items| && JsonReserved(items[i])
    case Object(members) => exists i :: 0 <= i < |members| && (Reserved(members[i].key) || JsonReserved(members[i].value))
    case _ => false
  }

  predicate FieldReserved(f: F.Field) {
    Reserved(f.name) || Reserved(f.value)
  }

  predicate HasReserved(c: Content) {
    match c
    case Form(fields) => exists i :: 0 <= i < |fields| && FieldReserved(fields[i])
    case Json(value) => JsonReserved(value)
  }

  /** The body as a document, if the profile supports it. */
  function DocumentOf(p: Profile, media: MediaType, body: Bytes, syntax: Syntax): Result<Content> {
    if |body| > MAX_BODY then Err(LimitExceeded)
    else if p.usernameVisible then Err(AuthProfileUnsupported)
    else if p.kind == FormKind && media == FormType then
      var f := F.Parsed(body);
      if f.Ok? then Ok(Form(f.value)) else Err(f.error)
    else if p.kind == JsonKind && media == JsonType then
      var v := syntax.read(body);
      if v.Some? then Ok(Json(v.value)) else Err(RequestInvalid)
    else Err(AuthProfileUnsupported)
  }

  /** The document with its placeholders taken out, if it is an acceptable login. */
  function Validated(p: Profile, c: Content, names: Placeholders, token: Option<CsrfToken>): Result<Content> {
    var first := Taken(c, p.username, names.username);
    if first.Err? then first
    else
      var second := Taken(first.value, p.password, names.password);
      if second.Err? then second
      else if p.submit.Some? != token.Some? then Err(PlaceholderInvalid)
      else
        var third := if p.submit.Some? then Taken(second.value, p.submit.value, token.value.placeholder) else second;
        if third.Ok? && HasReserved(third.value) then Err(PlaceholderInvalid) else third
  }

  function Accepted(p: Profile, media: MediaType, body: Bytes, names: Placeholders, token: Option<CsrfToken>, syntax: Syntax)
    : Result<Content>
  {
    var c := DocumentOf(p, media, body, syntax);
    if c.Err? then c else Validated(p, c.value, names, token)
  }

  function Expected(p: Profile, names: Placeholders, token: Option<CsrfToken>): seq<Edit> {
    Edits(p, Some(names.username), Some(names.password), if token.Some? then Some(token.value.placeholder) else None)
  }

  function Blanks(p: Profile): seq<Edit> {
    Edits(p, None, None, None)
  }

  /** Each selected node is exactly its placeholder. */
  predicate HoldsPlaceholders(c: Content, wanted: seq<Edit>) {
    forall i :: 0 <= i < |wanted| ==> wanted[i].text.Some? && Read(c, wanted[i].selector) == Some(Text(wanted[i].text.value))
  }

  predicate PointersFor(c: Content, edits: seq<Edit>) {
    forall i :: 0 <= i < |edits| ==> SelectorValid(edits[i].selector, c.Json?)
  }

  /** Taking several placeholders, in order. */
  function TakenAll(c: Content, wanted: seq<Edit>): Result<Content>
    requires forall i :: 0 <= i < |wanted| ==> wanted[i].text.Some?
    decreases |wanted|
  {
    if wanted == [] then Ok(c)
    else
      var d := Taken(c, wanted[0].selector, wanted[0].text.value);
      if d.Err? then d else TakenAll(d.value, wanted[1..])
  }

  function Cleared(edits: seq<Edit>): seq<Edit> {
    seq(|edits|, i requires 0 <= i < |edits| => Edit(edits[i].selector, None))
  }

  lemma TakenExactly(c: Content, selector: Bytes, expected: Bytes)
    requires SelectorValid(selector, c.Json?)
    ensures Taken(c, selector, expected).Ok? <==> Read(c, selector) == Some(Text(expected))
    ensures Taken(c, selector, expected).Ok? ==> Write(c, selector, None) == Some(Taken(c, selector, expected).value)
  {
    hide Read, Write;
  }

  lemma {:induction false} TakenAllExactly(c: Content, wanted: seq<Edit>)
    requires forall i :: 0 <= i < |wanted| ==> wanted[i].text.Some?
    requires AllApart(wanted, c.Json?) && PointersFor(c, wanted)
    ensures TakenAll(c, wanted).Ok? <==> HoldsPlaceholders(c, wanted)
    ensures TakenAll(c, wanted).Ok? ==> Fill(c, Cleared(wanted)) == Some(TakenAll(c, wanted).value)
    decreases |wanted|
  {
    if wanted != [] {
      var d := Taken(c, wanted[0].selector, wanted[0].text.value);
      assert SelectorValid(wanted[0].selector, c.Json?);
      TakenExactly(c, wanted[0].selector, wanted[0].text.value);
      if d.Ok? {
        hide Read, Write, Taken, Apart, SelectorValid, HoldsPlaceholders;
        TakenOthers(c, d.value, wanted);
        TakenAllExactly(d.value, wanted[1..]);
        PlaceholdersRest(c, d.value, wanted);
        ClearedRest(wanted);
      } else {
        hide Read, Write, Taken, Apart, SelectorValid;
      }
    }
  }

  lemma ClearedRest(wanted: seq<Edit>)
    requires wanted != []
    ensures Cleared(wanted)[0] == Edit(wanted[0].selector, None) && Cleared(wanted)[1..] == Cleared(wanted[1..])
  {
  }

  lemma TakenOthers(c: Content, d: Content, wanted: seq<Edit>)
    requires wanted != [] && AllApart(wanted, c.Json?) && PointersFor(c, wanted)
    requires Write(c, wanted[0].selector, None) == Some(d)
    ensures d.Json? == c.Json? && AllApart(wanted[1..], d.Json?) && PointersFor(d, wanted[1..])
    ensures forall i :: 0 < i < |wanted| ==> Read(d, wanted[i].selector) == Read(c, wanted[i].selector)
  {
    hide Read, Write, Apart, SelectorValid;
    forall i | 0 < i < |wanted| ensures Read(d, wanted[i].selector) == Read(c, wanted[i].selector) {
      WriteElsewhere(c, wanted[0].selector, None, wanted[i].selector);
    }
  }

  lemma PlaceholdersRest(c: Content, d: Content, wanted: seq<Edit>)
    requires wanted != [] && wanted[0].text.Some?
    requires Read(c, wanted[0].selector) == Some(Text(wanted[0].text.value))
    requires forall i :: 0 < i < |wanted| ==> Read(d, wanted[i].selector) == Read(c, wanted[i].selector)
    ensures HoldsPlaceholders(d, wanted[1..]) <==> HoldsPlaceholders(c, wanted)
  {
    hide Read;
    if HoldsPlaceholders(d, wanted[1..]) {
      forall i | 0 <= i < |wanted| ensures wanted[i].text.Some? && Read(c, wanted[i].selector) == Some(Text(wanted[i].text.value)) {
        if i > 0 { assert wanted[1..][i - 1] == wanted[i]; }
      }
    }
  }

  lemma TakenInOrder(p: Profile, c: Content, names: Placeholders, token: Option<CsrfToken>)
    requires p.submit.Some? == token.Some?
    ensures var w := Expected(p, names, token);
            && (forall i :: 0 <= i < |w| ==> w[i].text.Some?)
            && (Validated(p, c, names, token).Ok? <==> TakenAll(c, w).Ok? && !HasReserved(TakenAll(c, w).value))
            && (Validated(p, c, names, token).Ok? ==> Validated(p, c, names, token) == TakenAll(c, w))
  {
    hide Taken, HasReserved;
    var w := Expected(p, names, token);
    var first := Taken(c, p.username, names.username);
    if first.Ok? {
      assert TakenAll(c, w) == TakenAll(first.value, w[1..]);
      var second := Taken(first.value, p.password, names.password);
      assert w[1..][0] == w[1];
      if second.Ok? {
        assert TakenAll(first.value, w[1..]) == TakenAll(second.value, w[1..][1..]);
        if p.submit.Some? {
          assert w[1..][1..] == [w[2]];
          TakenOne(second.value, w[2]);
        } else {
          assert w[1..][1..] == [];
        }
      }
    }
  }

  lemma TakenOne(c: Content, e: Edit)
    requires e.text.Some?
    ensures TakenAll(c, [e]) == Taken(c, e.selector, e.text.value)
  {
    hide Taken;
    assert [e][1..] == [];
    var d := Taken(c, e.selector, e.text.value);
    if d.Ok? { assert TakenAll(d.value, []) == Ok(d.value); }
  }

  lemma PointersOf(p: Profile, c: Content, username: Option<Bytes>, password: Option<Bytes>, token: Option<Bytes>)
    requires Admitted(p) && c.Json? == (p.kind == JsonKind)
    ensures PointersFor(c, Edits(p, username, password, token))
  {
    hide SelectorValid;
  }

  /** A login body is accepted exactly when every selected node is its
      placeholder and no placeholder occurs anywhere else; what is kept is the
      document with the selected nodes blank. */
  lemma AcceptsExactly(p: Profile, c: Content, names: Placeholders, token: Option<CsrfToken>)
    requires Admitted(p) && c.Json? == (p.kind == JsonKind)
    ensures HoldsPlaceholders(c, Expected(p, names, token)) ==> Fill(c, Blanks(p)).Some?
    ensures Validated(p, c, names, token).Ok? <==>
            && p.submit.Some? == token.Some?
            && HoldsPlaceholders(c, Expected(p, names, token))
            && !HasReserved(Fill(c, Blanks(p)).value)
    ensures Validated(p, c, names, token).Ok? ==> Fill(c, Blanks(p)) == Some(Validated(p, c, names, token).value)
  {
    hide Taken, HasReserved, Fill, AllApart, PointersFor, SelectorValid, HoldsPlaceholders, Read;
    var w := Expected(p, names, token);
    if p.submit.Some? == token.Some? {
      TakenInOrder(p, c, names, token);
      EditsApart(p, Some(names.username), Some(names.password), if token.Some? then Some(token.value.placeholder) else None);
      PointersOf(p, c, Some(names.username), Some(names.password), if token.Some? then Some(token.value.placeholder) else None);
      TakenAllExactly(c, w);
      assert Cleared(w) == Blanks(p);
    } else {
      Mismatched(p, c, names, token);
    }
  }

  lemma Mismatched(p: Profile, c: Content, names: Placeholders, token: Option<CsrfToken>)
    requires p.submit.Some? != token.Some? && Admitted(p) && c.Json? == (p.kind == JsonKind)
    ensures Validated(p, c, names, token).Err?
    ensures HoldsPlaceholders(c, Expected(p, names, token)) ==> Fill(c, Blanks(p)).Some?
  {
    hide Read, Write, Taken, HasReserved, Apart, SelectorValid;
    var w := Expected(p, names, token);
    if HoldsPlaceholders(c, w) {
      EditsApart(p, None, None, None);
      assert forall i :: 0 <= i < |Blanks(p)| ==> Blanks(p)[i].selector == w[i].selector;
      FillSucceeds(c, Blanks(p));
    }
  }

  // ---- Substitution --------------------------------------------------------

  const MASK: Bytes := [91, 114, 101, 100, 97, 99, 116, 101, 100, 93]

  function Masks(p: Profile): seq<Edit> {
    Edits(p, Some(MASK), Some(MASK), Some(MASK))
  }

  function Secrets(p: Profile, username: Bytes, password: Bytes, token: Option<CsrfToken>): seq<Edit> {
    Edits(p, Some(username), Some(password), if token.Some? then Some(token.value.value) else None)
  }

  lemma Selected(p: Profile, a: seq<Edit>, b: seq<Edit>, c: Content)
    requires SameSelectors(a, b) && Addresses(c, a)
    ensures Addresses(c, b)
  {
    hide Read;
  }

  /** Blanking the placeholders leaves no trace: filling the validated document
      and filling the body as it was sent give the same document, whose selected
      nodes hold the credentials and whose other nodes are the sender's. */
  lemma SubstitutionMeaning(p: Profile, c: Content, names: Placeholders, token: Option<CsrfToken>, edits: seq<Edit>)
    requires Admitted(p) && c.Json? == (p.kind == JsonKind)
    requires Validated(p, c, names, token).Ok? && SameSelectors(edits, Blanks(p))
    ensures AllApart(edits, c.Json?) && Addresses(c, edits)
    ensures AllApart(edits, Validated(p, c, names, token).value.Json?) && Addresses(Validated(p, c, names, token).value, edits)
    ensures Fill(c, edits).Some? && Fill(Validated(p, c, names, token).value, edits) == Fill(c, edits)
  {
    AcceptsExactly(p, c, names, token);
    PlaceholdersAddressed(c, Expected(p, names, token));
    hide *;
    EditsApart(p, None, None, None);
    SelectorsAgree(p, names, token, edits);
    Selected(p, Expected(p, names, token), Blanks(p), c);
    ApartAgree(Blanks(p), edits, c.Json?);
    Selected(p, Blanks(p), edits, c);
    FillAgain(c, Blanks(p), edits);
    FillSucceeds(c, edits);
    FillSucceeds(c, Blanks(p));
    FillAddresses(c, Blanks(p), edits);
  }

  lemma PlaceholdersAddressed(c: Content, wanted: seq<Edit>)
    requires HoldsPlaceholders(c, wanted)
    ensures Addresses(c, wanted)
  {
    hide Read;
  }

  lemma SelectorsAgree(p: Profile, names: Placeholders, token: Option<CsrfToken>, edits: seq<Edit>)
    requires SameSelectors(edits, Blanks(p))
    ensures SameSelectors(Expected(p, names, token), Blanks(p)) && SameSelectors(Blanks(p), edits)
    ensures Blanks(p) == Edits(p, None, None, None)
  {
  }

  lemma ApartAgree(a: seq<Edit>, b: seq<Edit>, json: bool)
    requires AllApart(a, json) && SameSelectors(a, b)
    ensures AllApart(b, json)
  {
    hide Apart;
  }

  lemma FillAddresses(c: Content, first: seq<Edit>, edits: seq<Edit>)
    requires AllApart(first, c.Json?) && Addresses(c, first) && SameSelectors(first, edits)
    ensures Fill(c, first).Some? && Addresses(Fill(c, first).value, edits)
  {
    hide Read, AllApart, Fill;
    FillSucceeds(c, first);
    forall i | 0 <= i < |edits| ensures Read(Fill(c, first).value, edits[i].selector).Some? {
      FillReads(c, first, i);
    }
  }

  /** What an observer sees is the private body with the selected nodes masked,
      so it agrees with it everywhere else and is the same for all credentials. */
  lemma ObservedIsMasked(p: Profile, c: Content, names: Placeholders, token: Option<CsrfToken>, username: Bytes, password: Bytes)
    requires Admitted(p) && c.Json? == (p.kind == JsonKind) && Validated(p, c, names, token).Ok?
    ensures Fill(c, Secrets(p, username, password, token)).Some?
    ensures Fill(Fill(c, Secrets(p, username, password, token)).value, Masks(p))
            == Fill(Validated(p, c, names, token).value, Masks(p))
  {
    hide Validated, Fill, Addresses, AllApart, Admitted;
    var secrets := Secrets(p, username, password, token);
    SubstitutionMeaning(p, c, names, token, secrets);
    SubstitutionMeaning(p, c, names, token, Masks(p));
    FillAgain(c, secrets, Masks(p));
  }

  // ---- Forms ---------------------------------------------------------------

  predicate SameNames(a: seq<F.Field>, b: seq<F.Field>) {
    |a| == |b| && forall k :: 0 <= k < |a| ==> a[k].name == b[k].name
  }

  lemma {:induction false} FillNames(c: Content, edits: seq<Edit>)
    requires c.Form? && Fill(c, edits).Some?
    ensures Fill(c, edits).value.Form? && SameNames(c.fields, Fill(c, edits).value.fields)
    decreases |edits|
  {
    if edits != [] {
      FillNames(Write(c, edits[0].selector, edits[0].text).value, edits[1..]);
    }
  }

  lemma ReadNamed(fields: seq<F.Field>, k: nat)
    requires k < |fields| && F.DistinctNames(fields)
    ensures Read(Form(fields), fields[k].name) == Some(Text(fields[k].value))
  {
  }

  predicate SelectedBy(edits: seq<Edit>, name: Bytes, i: int) {
    0 <= i < |edits| && edits[i].selector == name
  }

  /** The same fields, the selected ones with their new values. */
  ghost predicate Edited(before: seq<F.Field>, after: seq<F.Field>, edits: seq<Edit>) {
    && SameNames(before, after)
    && (forall k, i :: 0 <= k < |after| && SelectedBy(edits, before[k].name, i) ==> edits[i].text == Some(after[k].value))
    && (forall k :: 0 <= k < |after| && (forall i :: !SelectedBy(edits, before[k].name, i)) ==> after[k] == before[k])
  }

  lemma FillEdits(fields: seq<F.Field>, edits: seq<Edit>)
    requires F.DistinctNames(fields) && AllApart(edits, false) && Addresses(Form(fields), edits)
    requires forall i :: 0 <= i < |edits| ==> edits[i].text.Some?
    ensures Fill(Form(fields), edits).Some? && Fill(Form(fields), edits).value.Form?
    ensures Edited(fields, Fill(Form(fields), edits).value.fields, edits)
  {
    hide Fill, Read, AllApart, Addresses;
    var c := Form(fields);
    FillSucceeds(c, edits);
    FillNames(c, edits);
    var after := Fill(c, edits).value.fields;
    forall k, i | 0 <= k < |after| && SelectedBy(edits, fields[k].name, i) ensures edits[i].text == Some(after[k].value) {
      ReadNamed(after, k);
      FillReads(c, edits, i);
    }
    forall k | 0 <= k < |after| && (forall i :: !SelectedBy(edits, fields[k].name, i)) ensures after[k] == fields[k] {
      forall i | 0 <= i < |edits| ensures Apart(edits[i].selector, fields[k].name, false) {
        assert !SelectedBy(edits, fields[k].name, i);
      }
      FillElsewhere(c, edits, fields[k].name);
      ReadNamed(fields, k);
      ReadNamed(after, k);
    }
  }

  lemma EditedWellFormed(before: seq<F.Field>, after: seq<F.Field>, edits: seq<Edit>)
    requires F.WellFormed(before) && Edited(before, after, edits)
    requires forall i :: 0 <= i < |edits| ==> edits[i].text.Some? && Utf8(edits[i].text.value)
    ensures F.WellFormed(after)
  {
    hide Utf8;
    forall k | 0 <= k < |after| ensures F.WellFormedField(after[k]) {
      assert F.WellFormedField(before[k]);
      if i :| SelectedBy(edits, before[k].name, i) {
        assert edits[i].text == Some(after[k].value);
      }
    }
  }

  /** Parsing the form that is sent gives the fields that the agent wrote, with
      only the selected ones replaced. */
  lemma FormMeaning(p: Profile, body: Bytes, names: Placeholders, token: Option<CsrfToken>, syntax: Syntax, edits: seq<Edit>)
    requires Admitted(p) && Accepted(p, FormType, body, names, token, syntax).Ok?
    requires SameSelectors(edits, Blanks(p))
    requires forall i :: 0 <= i < |edits| ==> edits[i].text.Some? && Utf8(edits[i].text.value)
    ensures F.Parsed(body).Ok?
    ensures var sent := Fill(Accepted(p, FormType, body, names, token, syntax).value, edits);
            && sent.Some? && sent.value.Form?
            && F.Parsed(F.EncodeForm(sent.value.fields)) == Ok(sent.value.fields)
            && Edited(F.Parsed(body).value, sent.value.fields, edits)
  {
    hide Validated, Admitted, Fill, Addresses, AllApart, Edited, Utf8, F.WellFormed, SameSelectors;
    var fields := F.Parsed(body).value;
    F.ParsesToWellFormed(body);
    SubstitutionMeaning(p, Form(fields), names, token, edits);
    WellFormedDistinct(fields);
    FillEdits(fields, edits);
    var after := Fill(Form(fields), edits).value.fields;
    EditedWellFormed(fields, after, edits);
    EditedLength(fields, after, edits);
    F.RoundTrip(after);
  }

  lemma WellFormedDistinct(fields: seq<F.Field>)
    requires F.WellFormed(fields)
    ensures F.DistinctNames(fields)
  {
  }

  lemma EditedLength(before: seq<F.Field>, after: seq<F.Field>, edits: seq<Edit>)
    requires Edited(before, after, edits)
    ensures |before| == |after|
  {
  }

  // ---- Placeholders stay out -----------------------------------------------

  lemma StartsAt(s: Bytes, k: nat, part: Bytes)
    requires part != []
    ensures StartsWith(s, k, part) ==> k + |part| <= |s| && s[k] == part[0]
  {
  }

  lemma MaskUnreserved()
    ensures !Reserved(MASK) && !Reserved([])
  {
    forall part: Bytes | part in {PASSWORD_PREFIX, USERNAME_PREFIX, CSRF_PREFIX} ensures !Contains(MASK, part) && !Contains([], part) {
      forall k | 0 <= k <= |MASK| ensures !StartsWith(MASK, k, part) {
        StartsAt(MASK, k, part);
      }
      assert !StartsWith([], 0, part);
    }
  }

  lemma {:induction false} PutUnreserved(v: Value, path: seq<Bytes>, x: Value)
    requires Get(v, path).Some? && !JsonReserved(v) && !JsonReserved(x)
    ensures !JsonReserved(Put(v, path, x).value)
    decreases |path|
  {
    if path != [] {
      hide Reserved, Slot, Get, Put;
      PutStep(v, path, x);
      var i := Slot(v, path[0]).value;
      PutUnreserved(Child(v, i), path[1..], x);
    }
  }

  lemma WriteUnreserved(c: Content, s: Bytes, t: Option<Bytes>)
    requires Read(c, s).Some? && !HasReserved(c) && (t.Some? ==> !Reserved(t.value))
    ensures !HasReserved(Write(c, s, t).value)
  {
    hide Reserved;
    MaskUnreserved();
    match c
    case Form(fields) =>
      assert !FieldReserved(fields[PlaceOf(fields, s)]);
    case Json(value) =>
      PutUnreserved(value, Tokens(s), Leaf(c, t));
  }

  lemma {:induction false} FillUnreserved(c: Content, edits: seq<Edit>)
    requires AllApart(edits, c.Json?) && Addresses(c, edits) && !HasReserved(c)
    requires forall i :: 0 <= i < |edits| ==> edits[i].text.Some? && !Reserved(edits[i].text.value)
    ensures Fill(c, edits).Some? && !HasReserved(Fill(c, edits).value)
    decreases |edits|
  {
    if edits != [] {
      hide Write, Read, Apart, AllApart, Addresses, HasReserved, Reserved;
      FillStep(c, edits);
      AddressedAt(c, edits, 0);
      WriteUnreserved(c, edits[0].selector, edits[0].text);
      FillUnreserved(Write(c, edits[0].selector, edits[0].text).value, edits[1..]);
    }
  }

  /** No placeholder reaches an observer, nor, unless a credential contains one,
      the destination. */
  lemma PlaceholdersStayOut(p: Profile, c: Content, names: Placeholders, token: Option<CsrfToken>, edits: seq<Edit>)
    requires Admitted(p) && c.Json? == (p.kind == JsonKind) && Validated(p, c, names, token).Ok?
    requires SameSelectors(edits, Blanks(p))
    requires forall i :: 0 <= i < |edits| ==> edits[i].text.Some? && !Reserved(edits[i].text.value)
    ensures Fill(Validated(p, c, names, token).value, edits).Some?
    ensures !HasReserved(Fill(Validated(p, c, names, token).value, edits).value)
    ensures forall i :: 0 <= i < |Masks(p)| ==> Masks(p)[i].text.Some? && !Reserved(Masks(p)[i].text.value)
  {
    AcceptsExactly(p, c, names, token);
    hide *;
    SubstitutionMeaning(p, c, names, token, edits);
    FillUnreserved(Validated(p, c, names, token).value, edits);
    MasksUnreserved(p);
  }

  lemma MasksUnreserved(p: Profile)
    ensures forall i :: 0 <= i < |Masks(p)| ==> Masks(p)[i].text.Some? && !Reserved(Masks(p)[i].text.value)
  {
    hide Reserved;
    MaskUnreserved();
  }
}
