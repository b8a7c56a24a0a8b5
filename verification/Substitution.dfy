/** The login transforms as they run: a document edited in place, the validated
    login that owns it, and the page token that becomes a placeholder. */
module Substitution {
  import opened Prelude
  import opened Encodings
  import opened JsonPointer
  import opened Login
  import F = Forms
  import R = Redactor

  function WireText(c: Content, syntax: Syntax): Bytes {
    match c
    case Form(fields) => F.EncodeForm(fields)
    case Json(value) => syntax.write(value)
  }

  /** The body that goes on the wire, within the size limit. */
  function Emitted(c: Option<Content>, syntax: Syntax): Result<Bytes> {
    if c.None? then Err(InternalError)
    else if |WireText(c.value, syntax)| > MAX_BODY then Err(LimitExceeded)
    else Ok(WireText(c.value, syntax))
  }

  class Document {
    var content: Content

    constructor (content: Content)
      ensures this.content == content
    {
      this.content := content;
    }

    method Locate(fields: seq<F.Field>, name: Bytes) returns (k: nat)
      ensures k == PlaceOf(fields, name)
    {
      k := 0;
      while k < |fields| && fields[k].name != name
        invariant k <= |fields|
        invariant forall j :: 0 <= j < k ==> fields[j].name != name
      {
        k := k + 1;
      }
    }

    /** Clear a node that holds exactly the expected placeholder. */
    method TakeExpected(selector: Bytes, expected: Bytes) returns (r: Result<()>)
      modifies this
      ensures Taken(old(content), selector, expected) == if r.Ok? then Ok(content) else Err(r.error)
      ensures r.Err? ==> content == old(content)
    {
      if selector == [] { return Err(RequestInvalid); }
      match content
      case Form(fields) =>
        var k := Locate(fields, selector);
        if k == |fields| || fields[k].value != expected { return Err(PlaceholderInvalid); }
        content := Form(fields[k := fields[k].(value := [])]);
        return Ok(());
      case Json(value) =>
        if selector[0] != SLASH { return Err(RequestInvalid); }
        var node := Get(value, Tokens(selector));
        if node != Some(Text(expected)) { return Err(PlaceholderInvalid); }
        content := Json(JsonPointer.Put(value, Tokens(selector), Null).value);
        return Ok(());
    }

    /** Write a text at an existing node. */
    method Put(selector: Bytes, text: Bytes) returns (r: Result<()>)
      modifies this
      ensures r.Ok? <==> Read(old(content), selector).Some?
      ensures r.Err? ==> r.error == InternalError && content == old(content)
      ensures r.Ok? ==> Write(old(content), selector, Some(text)) == Some(content)
    {
      match content
      case Form(fields) =>
        var k := Locate(fields, selector);
        if k == |fields| { return Err(InternalError); }
        content := Form(fields[k := fields[k].(value := text)]);
        return Ok(());
      case Json(value) =>
        if selector != [] && selector[0] != SLASH { return Err(InternalError); }
        var changed := JsonPointer.Put(value, Tokens(selector), Text(text));
        if changed.None? { return Err(InternalError); }
        content := Json(changed.value);
        return Ok(());
    }

    /** The three writes of a login, in the order the adapter makes them. */
    method PutAll(username: Edit, password: Edit, token: Option<Edit>) returns (r: Result<()>)
      requires username.text.Some? && password.text.Some? && (token.Some? ==> token.value.text.Some?)
      modifies this
      ensures r.Ok? <==> Fill(old(content), [username, password] + (if token.Some? then [token.value] else [])).Some?
      ensures r.Ok? ==> Fill(old(content), [username, password] + (if token.Some? then [token.value] else [])) == Some(content)
      ensures r.Err? ==> r.error == InternalError
    {
      hide Login.Read, Login.Write;
      ThreeWrites(content, username, password, token);
      r := Put(username.selector, username.text.value);
      if r.Err? { return; }
      r := Put(password.selector, password.text.value);
      if r.Err? { return; }
      if token.Some? {
        r := Put(token.value.selector, token.value.text.value);
      }
    }
  }

  lemma ThreeWrites(c: Content, username: Edit, password: Edit, token: Option<Edit>)
    ensures var r := Fill(c, [username, password] + (if token.Some? then [token.value] else []));
            var first := Write(c, username.selector, username.text);
            if first.None? then r.None?
            else
              var second := Write(first.value, password.selector, password.text);
              if second.None? then r.None?
              else if token.Some? then r == Write(second.value, token.value.selector, token.value.text)
              else r == second
  {
    hide Login.Write;
    var all := [username, password] + (if token.Some? then [token.value] else []);
    var first := Write(c, username.selector, username.text);
    if first.Some? {
      assert all[1..][0] == password;
      assert Fill(c, all) == Fill(first.value, all[1..]);
      var second := Write(first.value, password.selector, password.text);
      if second.Some? {
        var rest := all[1..][1..];
        assert Fill(first.value, all[1..]) == Fill(second.value, rest);
        assert rest == if token.Some? then [token.value] else [];
        if token.Some? {
          var third := Write(second.value, token.value.selector, token.value.text);
          assert rest[1..] == [];
          if third.Some? { assert Fill(third.value, []) == third; }
        }
      }
    }
  }

  class ValidatedLogin {
    const document: Document
    const profile: Profile
    const csrf: Option<CsrfToken>

    ghost predicate Valid() {
      profile.submit.Some? == csrf.Some?
    }

    constructor (document: Document, profile: Profile, csrf: Option<CsrfToken>)
      requires profile.submit.Some? == csrf.Some?
      ensures Valid() && this.document == document && this.profile == profile && this.csrf == csrf
    {
      this.document, this.profile, this.csrf := document, profile, csrf;
    }

    /** Validates a whole body without any credential. */
    static method Parse(profile: Profile, media: MediaType, body: Bytes, names: Placeholders, csrf: Option<CsrfToken>, syntax: Syntax)
      returns (r: Result<ValidatedLogin>)
      ensures r.Err? ==> Accepted(profile, media, body, names, csrf, syntax) == Err(r.error)
      ensures r.Ok? ==>
        && fresh(r.value) && fresh(r.value.document) && r.value.Valid()
        && r.value.profile == profile && r.value.csrf == csrf
        && Accepted(profile, media, body, names, csrf, syntax) == Ok(r.value.document.content)
    {
      hide Taken, HasReserved, F.Parsed;
      if |body| > MAX_BODY { return Err(LimitExceeded); }
      if profile.usernameVisible { return Err(AuthProfileUnsupported); }
      var content: Content;
      if profile.kind == FormKind && media == FormType {
        var fields := F.ParseForm(body);
        if fields.Err? { return Err(fields.error); }
        content := Form(fields.value);
      } else if profile.kind == JsonKind && media == JsonType {
        var value := syntax.read(body);
        if value.None? { return Err(RequestInvalid); }
        content := Json(value.value);
      } else {
        return Err(AuthProfileUnsupported);
      }
      var document := new Document(content);
      var taken := document.TakeExpected(profile.username, names.username);
      if taken.Err? { return Err(taken.error); }
      taken := document.TakeExpected(profile.password, names.password);
      if taken.Err? { return Err(taken.error); }
      if profile.submit.Some? && csrf.Some? {
        taken := document.TakeExpected(profile.submit.value, csrf.value.placeholder);
        if taken.Err? { return Err(taken.error); }
      } else if profile.submit.Some? || csrf.Some? {
        return Err(PlaceholderInvalid);
      }
      if HasReserved(document.content) { return Err(PlaceholderInvalid); }
      var login := new ValidatedLogin(document, profile, csrf);
      return Ok(login);
    }

    /** The body as an observer may see it; the login is unchanged. */
    method Observation(syntax: Syntax) returns (r: Result<Bytes>)
      requires Valid()
      ensures r == Emitted(Fill(document.content, Masks(profile)), syntax)
    {
      hide Fill, F.EncodeForm;
      var copy := new Document(document.content);
      var token := if csrf.Some? then Some(Edit(profile.submit.value, Some(MASK))) else None;
      var put := copy.PutAll(Edit(profile.username, Some(MASK)), Edit(profile.password, Some(MASK)), token);
      if put.Err? { return Err(InternalError); }
      if |WireText(copy.content, syntax)| > MAX_BODY { return Err(LimitExceeded); }
      return Ok(WireText(copy.content, syntax));
    }

    /** Writes the credentials in and hands out the wire body, with a redactor
        for every secret in it. */
    method Substitute(username: Result<Bytes>, password: Result<Bytes>, syntax: Syntax) returns (r: Result<(Bytes, R.Redactor)>)
      requires Valid()
      modifies document
      ensures r.Ok? ==>
        && username.Ok? && password.Ok? && Utf8(username.value) && Utf8(password.value)
        && Emitted(Fill(old(document.content), Secrets(profile, username.value, password.value, csrf)), syntax) == Ok(r.value.0)
        && fresh(r.value.1) && r.value.1.Valid()
        && r.value.1.patterns == R.Arranged(R.AllSpellings(Hidden(username.value, password.value, csrf)))
        && R.Suppresses(r.value.1.patterns, [username.value, password.value] + (if csrf.Some? then [csrf.value.value] else []))
      ensures r.Err? && username.Ok? && password.Ok? && R.Acceptable(Hidden(username.value, password.value, csrf)) ==>
        if Utf8(username.value) && Utf8(password.value)
        then Emitted(Fill(old(document.content), Secrets(profile, username.value, password.value, csrf)), syntax) == Err(r.error)
        else r.error == AuthProfileUnsupported && document.content == old(document.content)
    {
      hide Fill, F.EncodeForm, Utf8, R.AllSpellings, R.Arranged, R.Suppresses;
      if username.Err? { return Err(username.error); }
      if password.Err? { return Err(password.error); }
      var redactor := R.Redactor.New(Hidden(username.value, password.value, csrf));
      if redactor.Err? { return Err(redactor.error); }
      if !Utf8(username.value) || !Utf8(password.value) { return Err(AuthProfileUnsupported); }
      var token := if csrf.Some? then Some(Edit(profile.submit.value, Some(csrf.value.value))) else None;
      var put := document.PutAll(Edit(profile.username, Some(username.value)), Edit(profile.password, Some(password.value)), token);
      if put.Err? { return Err(InternalError); }
      if |WireText(document.content, syntax)| > MAX_BODY { return Err(LimitExceeded); }
      return Ok((WireText(document.content, syntax), redactor.value));
    }
  }

  /** The values a substituted body must not reveal. */
  function Hidden(username: Bytes, password: Bytes, csrf: Option<CsrfToken>): seq<Bytes> {
    [username, password] + (if csrf.Some? then [csrf.value.value] else [])
  }

  /** An accepted login never fails for an internal reason: with text
      credentials, only the size of the result can stop it. */
  lemma OnlySizeFails(p: Profile, media: MediaType, body: Bytes, names: Placeholders, token: Option<CsrfToken>, syntax: Syntax,
                      username: Bytes, password: Bytes)
    requires Admitted(p) && Accepted(p, media, body, names, token, syntax).Ok?
    ensures var c := Accepted(p, media, body, names, token, syntax).value;
            var sent := Fill(c, Secrets(p, username, password, token));
            var seen := Fill(c, Masks(p));
            && sent.Some? && seen.Some?
            && (Emitted(sent, syntax).Err? <==> |WireText(sent.value, syntax)| > MAX_BODY)
            && (Emitted(sent, syntax).Err? ==> Emitted(sent, syntax).error == LimitExceeded)
            && Fill(sent.value, Masks(p)) == seen
  {
    hide Validated, Fill, Admitted, WireText, Addresses, AllApart;
    var c := DocumentOf(p, media, body, syntax).value;
    SubstitutionMeaning(p, c, names, token, Secrets(p, username, password, token));
    SubstitutionMeaning(p, c, names, token, Masks(p));
    ObservedIsMasked(p, c, names, token, username, password);
  }

  // ---- Page tokens ---------------------------------------------------------

  const MAX_TOKEN: nat := 4096

  /** The token of a page, and the page with its placeholder instead. */
  method FromPage(pointer: Bytes, body: Bytes, placeholder: Bytes, syntax: Syntax) returns (r: Result<(CsrfToken, Bytes)>)
    ensures r.Ok? <==>
      && |body| <= MAX_BODY && syntax.read(body).Some? && pointer != [] && pointer[0] == SLASH
      && TokenNode(Get(syntax.read(body).value, Tokens(pointer)))
      && |syntax.write(Put(syntax.read(body).value, Tokens(pointer), Text(placeholder)).value)| <= MAX_BODY
    ensures r.Ok? ==>
      var page := syntax.read(body).value;
      && Get(page, Tokens(pointer)) == Some(Text(r.value.0.value)) && r.value.0.placeholder == placeholder
      && 0 < |r.value.0.value| <= MAX_TOKEN
      && r.value.1 == syntax.write(Put(page, Tokens(pointer), Text(placeholder)).value)
    ensures r.Err? ==> r.error in {LimitExceeded, RequestInvalid}
  {
    if |body| > MAX_BODY { return Err(LimitExceeded); }
    var page := syntax.read(body);
    if page.None? { return Err(RequestInvalid); }
    if pointer == [] || pointer[0] != SLASH { return Err(RequestInvalid); }
    var node := Get(page.value, Tokens(pointer));
    if !TokenNode(node) { return Err(RequestInvalid); }
    var shown := syntax.write(Put(page.value, Tokens(pointer), Text(placeholder)).value);
    if |shown| > MAX_BODY { return Err(LimitExceeded); }
    return Ok((CsrfToken(placeholder, node.value.text), shown));
  }

  predicate TokenNode(node: Option<Value>) {
    node.Some? && node.value.Text? && 0 < |node.value.text| <= MAX_TOKEN
  }
}
