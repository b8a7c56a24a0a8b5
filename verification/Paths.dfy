/** Which cookies go where and for how long, in the terms of RFC 6265: path
    segments, directories, ages and the header that is sent. */
module Paths {
  import opened Prelude
  import opened Cookies

  // ---- Segments ------------------------------------------------------------

  function FirstSlash(s: Bytes): (k: nat)
    ensures k <= |s| && (k < |s| ==> s[k] == 47) && forall j :: 0 <= j < k ==> s[j] != 47
  {
    if s == [] || s[0] == 47 then 0 else FirstSlash(s[1..]) + 1
  }

  /** The pieces between the slashes. */
  function Segments(s: Bytes): (r: seq<Bytes>)
    ensures |r| >= 1
    decreases |s|
  {
    var k := FirstSlash(s);
    if k == |s| then [s] else [s[..k]] + Segments(s[k + 1..])
  }

  /** The cookie's segments, without the empty one behind a final slash, are the
      first ones of the request's; behind a final slash one more has to follow. */
  predicate Under(cookie: Bytes, request: Bytes) {
    var open := cookie != [] && cookie[|cookie| - 1] == 47;
    var own := if open then Segments(cookie)[..|Segments(cookie)| - 1] else Segments(cookie);
    own <= Segments(request) && (open ==> |Segments(request)| > |own|)
  }

  predicate NoSlash(s: Bytes) {
    forall j :: 0 <= j < |s| ==> s[j] != 47
  }

  /** The first piece, and the pieces behind it. */
  lemma SegmentsOf(head: Bytes, tail: Bytes)
    requires NoSlash(head)
    ensures Segments(head) == [head] && Segments(head + [47] + tail) == [head] + Segments(tail)
  {
    var s := head + [47] + tail;
    assert s[|head|] == 47;
    assert forall j :: 0 <= j < |head| ==> s[j] == head[j];
    assert FirstSlash(s) == |head| && FirstSlash(head) == |head|;
    assert s[..|head|] == head && s[|head| + 1..] == tail;
  }

  lemma FirstPiece(s: Bytes)
    ensures NoSlash(s[..FirstSlash(s)])
    ensures FirstSlash(s) < |s| ==> s == s[..FirstSlash(s)] + [47] + s[FirstSlash(s) + 1..]
    ensures FirstSlash(s) == |s| ==> s[..FirstSlash(s)] == s
  {
    hide FirstSlash;
    var k := FirstSlash(s);
    if k < |s| { AroundAt(s, k); }
  }

  lemma AroundAt(s: Bytes, k: nat)
    requires k < |s|
    ensures s == s[..k] + [s[k]] + s[k + 1..]
  {
  }

  lemma {:induction false} SegmentsJoin(a: Bytes, b: Bytes)
    ensures Segments(a + [47] + b) == Segments(a) + Segments(b)
    decreases |a|
  {
    hide Segments, FirstSlash, NoSlash;
    var k := FirstSlash(a);
    FirstPiece(a);
    if k == |a| {
      SegmentsOf(a, b);
    } else {
      var head, tail := a[..k], a[k + 1..];
      SegmentsOf(head, tail);
      SegmentsJoin(tail, b);
      SegmentsOf(head, tail + [47] + b);
      assert a + [47] + b == head + [47] + (tail + [47] + b);
    }
  }

  /** Whose segments begin with those of `a` is `a`, or goes on below it. */
  lemma {:induction false} SegmentsPrefix(a: Bytes, r: Bytes)
    requires Segments(a) <= Segments(r)
    ensures r == a || a + [47] <= r
    decreases |a|
  {
    hide Segments, FirstSlash, NoSlash;
    var k, m := FirstSlash(a), FirstSlash(r);
    FirstPiece(a);
    FirstPiece(r);
    SegmentsOf(a[..k], a[if k < |a| then k + 1 else k..]);
    SegmentsOf(r[..m], r[if m < |r| then m + 1 else m..]);
    assert Segments(a)[0] == a[..k] && Segments(r)[0] == r[..m];
    if k < |a| {
      assert Segments(a)[1..] == Segments(a[k + 1..]);
      assert m < |r|;
      assert Segments(r)[1..] == Segments(r[m + 1..]);
      SegmentsPrefix(a[k + 1..], r[m + 1..]);
    }
  }

  lemma OpenPath(c: Bytes)
    requires c != [] && c[|c| - 1] == 47
    ensures Segments(c)[..|Segments(c)| - 1] == Segments(c[..|c| - 1])
  {
    hide Segments, FirstSlash;
    var a := c[..|c| - 1];
    assert c == a + [47] + [];
    SegmentsJoin(a, []);
    SegmentsOf([], []);
  }

  lemma MatchesUnder(c: Bytes, r: Bytes)
    requires PathMatches(c, r)
    ensures Under(c, r)
  {
    hide Segments, FirstSlash;
    if c != [] && c[|c| - 1] == 47 {
      OpenPath(c);
      var a := c[..|c| - 1];
      assert r == a + [47] + r[|c|..];
      SegmentsJoin(a, r[|c|..]);
    } else if r != c {
      assert r == c + [47] + r[|c| + 1..];
      SegmentsJoin(c, r[|c| + 1..]);
    }
  }

  lemma UnderMatches(c: Bytes, r: Bytes)
    requires Under(c, r)
    ensures PathMatches(c, r)
  {
    hide Segments, FirstSlash;
    if c != [] && c[|c| - 1] == 47 {
      OpenPath(c);
      var a := c[..|c| - 1];
      SegmentsPrefix(a, r);
      assert c == a + [47];
    } else {
      SegmentsPrefix(c, r);
      if r != c { assert (c + [47])[|c|] == 47; }
    }
  }

  // ---- What is sent --------------------------------------------------------

  /** The path is the request's own, or a leading part of it that ends in a slash or
      is followed by one. */
  ghost predicate LeadsTo(cookie: Bytes, request: Bytes) {
    || request == cookie
    || exists rest: Bytes :: request == cookie + rest && rest != []
         && (rest[0] == 47 || (cookie != [] && cookie[|cookie| - 1] == 47))
  }

  /** A cookie is sent to a request exactly when the jar has it, it has not expired
      and the request's path is under its own, segment by segment. */
  lemma SentExactly(cookies: seq<Cookie>, request: Bytes, now: int, c: Cookie)
    ensures c in Selection(cookies, request, now) <==>
              c in cookies && (c.expires.Some? ==> now < c.expires.value) && Under(c.path, request)
    ensures Under(c.path, request) <==> LeadsTo(c.path, request)
  {
    hide Selection, Under, PathMatches;
    SelectionExactly(cookies, request, now, c);
    UnderExactly(c.path, request);
  }

  lemma UnderExactly(c: Bytes, r: Bytes)
    ensures Under(c, r) <==> PathMatches(c, r)
    ensures PathMatches(c, r) <==> LeadsTo(c, r)
  {
    hide Under;
    if Under(c, r) { UnderMatches(c, r); }
    if PathMatches(c, r) {
      MatchesUnder(c, r);
      if r != c { assert r == c + r[|c|..]; }
    }
    if rest: Bytes :| r == c + rest && rest != [] && (rest[0] == 47 || (c != [] && c[|c| - 1] == 47)) {
      assert r[|c|] == rest[0];
    }
  }

  /** A cookie for "/app" is not sent to "/application", but is to "/app/a". */
  lemma OtherApplication(now: int)
    ensures var app: Bytes := [47, 97, 112, 112];
            && !Under(app, app + [108, 105, 99, 97, 116, 105, 111, 110])
            && Under(app, app + [47, 97])
  {
    var app: Bytes := [47, 97, 112, 112];
    UnderExactly(app, app + [108, 105, 99, 97, 116, 105, 111, 110]);
    UnderExactly(app, app + [47, 97]);
    assert (app + [108, 105, 99, 97, 116, 105, 111, 110])[4] == 108;
    assert (app + [47, 97])[4] == 47;
  }

  /** The default path is the request's directory: all before the last slash, or a
      slash where nothing is (section 5.1.4). */
  lemma DirectoryIs(directory: Bytes, file: Bytes)
    requires forall k :: 0 <= k < |file| ==> file[k] != 47
    ensures DefaultPath(directory + [47] + file) == if directory == [] then [47] else directory
    ensures DefaultPath(file) == [47]
  {
    var s := directory + [47] + file;
    assert s[|directory|] == 47;
    assert forall j :: |directory| < j < |s| ==> s[j] != 47 by {
      forall j | |directory| < j < |s| ensures s[j] != 47 { assert s[j] == file[j - |directory| - 1]; }
    }
    assert LastSlash(s) == |directory| + 1;
    assert s[..|directory|] == directory;
  }

  // ---- Ages ----------------------------------------------------------------

  lemma {:induction false} GivenAt(attributes: seq<Attribute>, now: int, i: nat)
    requires i < |attributes| && Unrepeated(attributes)
    ensures attributes[i].PathIs? ==> PathGiven(attributes) == Some(attributes[i].path)
    ensures attributes[i].Expires? ==> DateGiven(attributes) == attributes[i].date
    ensures attributes[i].MaxAge? ==>
              AgeGiven(attributes, now) == Some(if attributes[i].age.Seconds? then now + attributes[i].age.n else now)
    decreases |attributes|
  {
    var n := |attributes| - 1;
    if i < n {
      assert Key(attributes[i]) != Key(attributes[n]);
      GivenAt(attributes[..n], now, i);
    }
  }

  lemma {:induction false} NoneGiven(attributes: seq<Attribute>, now: int)
    ensures (forall i :: 0 <= i < |attributes| ==> !attributes[i].PathIs?) ==> PathGiven(attributes).None?
    ensures (forall i :: 0 <= i < |attributes| ==> !attributes[i].Expires?) ==> DateGiven(attributes).None?
    ensures (forall i :: 0 <= i < |attributes| ==> !attributes[i].MaxAge?) ==> AgeGiven(attributes, now).None?
    decreases |attributes|
  {
    if attributes != [] { NoneGiven(attributes[..|attributes| - 1], now); }
  }

  /** The one attribute of an accepted header that says how long its cookie lasts:
      a Max-Age wins over an Expires, and is over at once if it is negative; without
      either the cookie does not expire. Its path is the one given. */
  lemma LifetimeIs(h: SetCookie, request: Bytes, now: int, i: nat)
    requires Acceptable(h, now) && i < |h.attributes|
    ensures var a, c := h.attributes[i], CookieOf(h, request, now);
            && (a.MaxAge? && a.age.Seconds? ==> c.expires == Some(now + a.age.n))
            && (a.MaxAge? && a.age.Negative? ==> c.expires == Some(now))
            && (a.Expires? && (forall j :: 0 <= j < |h.attributes| ==> !h.attributes[j].MaxAge?) ==> c.expires == a.date && a.date.Some?)
            && (a.PathIs? ==> c.path == a.path)
  {
    hide AgeGiven, DateGiven, PathGiven;
    GivenAt(h.attributes, now, i);
    NoneGiven(h.attributes, now);
  }

  lemma NoLifetime(h: SetCookie, request: Bytes, now: int)
    requires Acceptable(h, now) && forall j :: 0 <= j < |h.attributes| ==> !h.attributes[j].MaxAge? && !h.attributes[j].Expires?
    ensures CookieOf(h, request, now).expires.None?
    ensures (forall j :: 0 <= j < |h.attributes| ==> !h.attributes[j].PathIs?) ==> CookieOf(h, request, now).path == DefaultPath(request)
  {
    hide AgeGiven, DateGiven, PathGiven;
    NoneGiven(h.attributes, now);
  }

  /** A cookie value is made of the octets of section 4.1.1: no controls, no
      whitespace, no quote, comma, semicolon or backslash, nothing beyond ASCII. */
  lemma ValueOctets(h: SetCookie, now: int, k: nat)
    requires Acceptable(h, now) && k < |h.value|
    ensures 33 <= h.value[k] <= 126 && h.value[k] !in [34, 44, 59, 92]
  {
    assert ValueByte(h.value[k]);
  }

  /** An accepted header is marked Secure, carries no attribute that is not
      understood, and gives a path of its own only as "/" and what may follow it; a
      name with the `__Host-` prefix is accepted for the path "/" alone. */
  lemma AcceptedOnly(h: SetCookie, request: Bytes, now: int)
    requires Acceptable(h, now)
    ensures Secure in h.attributes
    ensures forall a :: a in h.attributes ==> !a.Foreign? && (a.SameSite? ==> a.accepted)
    ensures h.hosted ==> CookieOf(h, request, now).path == [47]
    ensures PathGiven(h.attributes).Some? ==> PathIs(PathGiven(h.attributes).value) in h.attributes
    ensures forall a :: a in h.attributes && a.PathIs? ==> a.path != [] && a.path[0] == 47 && |a.path| <= 2048
  {
    GivenIn(h.attributes);
    var k :| 0 <= k < |h.attributes| && h.attributes[k] == Secure;
    forall a | a in h.attributes ensures Understood(a, now) {
      var j :| 0 <= j < |h.attributes| && h.attributes[j] == a;
    }
  }

  lemma {:induction false} GivenIn(attributes: seq<Attribute>)
    ensures PathGiven(attributes).Some? ==> PathIs(PathGiven(attributes).value) in attributes
    decreases |attributes|
  {
    if attributes != [] { GivenIn(attributes[..|attributes| - 1]); }
  }

  // ---- A response's cookies ------------------------------------------------

  /** Header `k` sets `c`. */
  predicate Sets(headers: seq<SetCookie>, k: nat, request: Bytes, now: int, c: Cookie)
    requires k < |headers|
  {
    CookieOf(headers[k], request, now) == c
  }

  predicate Lives(c: Cookie, now: int) {
    c.expires.Some? ==> now < c.expires.value
  }

  /** Some header of the batch has the name and path of `c`. */
  ghost predicate Renewed(headers: seq<SetCookie>, request: Bytes, now: int, c: Cookie) {
    exists k :: 0 <= k < |headers| && CookieOf(headers[k], request, now).name == c.name && CookieOf(headers[k], request, now).path == c.path
  }

  ghost predicate SetAlive(headers: seq<SetCookie>, request: Bytes, now: int, c: Cookie) {
    Lives(c, now) && exists k :: 0 <= k < |headers| && Sets(headers, k, request, now, c)
  }

  lemma {:induction false} SlotsAre(headers: seq<SetCookie>, request: Bytes, now: int, c: Cookie)
    ensures (c.name, c.path) in SlotsOf(headers, request, now) <==> Renewed(headers, request, now, c)
    decreases |headers|
  {
    hide CookieOf;
    if headers != [] {
      var n := |headers| - 1;
      SlotsAre(headers[..n], request, now, c);
      RenewedLast(headers, request, now, c);
    }
  }

  lemma RenewedLast(headers: seq<SetCookie>, request: Bytes, now: int, c: Cookie)
    requires headers != []
    ensures var n := |headers| - 1;
            && (Renewed(headers, request, now, c) <==>
                  || Renewed(headers[..n], request, now, c)
                  || (CookieOf(headers[n], request, now).name == c.name && CookieOf(headers[n], request, now).path == c.path))
            && (SetAlive(headers, request, now, c) <==>
                  SetAlive(headers[..n], request, now, c) || (Lives(c, now) && CookieOf(headers[n], request, now) == c))
  {
    hide CookieOf;
    var n := |headers| - 1;
    assert forall k :: 0 <= k < n ==> headers[..n][k] == headers[k];
    if k :| 0 <= k < n && Sets(headers[..n], k, request, now, c) { assert Sets(headers, k, request, now, c); }
    if k :| 0 <= k < |headers| && Sets(headers, k, request, now, c) { assert k == n || Sets(headers[..n], k, request, now, c); }
    assert Sets(headers, n, request, now, c) <==> CookieOf(headers[n], request, now) == c;
  }

  /** After an accepted batch the jar has exactly the batch's own cookies that have
      not expired, and of its former ones those that live and that no header of the
      batch renewed or deleted; no two headers of the batch are for one name and
      path, and every value it ever had is remembered. */
  lemma {:induction false} CapturedExactly(cookies: seq<Cookie>, history: seq<Bytes>, headers: seq<SetCookie>, request: Bytes, now: int, c: Cookie)
    requires DistinctSlots(cookies) && Batch(cookies, history, headers, request, now).Some?
    ensures var b := Batch(cookies, history, headers, request, now).value;
            && DistinctSlots(b.cookies)
            && (c in b.cookies <==>
                  SetAlive(headers, request, now, c) || (c in cookies && Lives(c, now) && !Renewed(headers, request, now, c)))
            && (forall k :: 0 <= k < |headers| ==> Acceptable(headers[k], now))
    decreases |headers|
  {
    hide CookieOf, Acceptable, Stored, Remembered;
    if headers == [] {
      UnexpiredDistinct(cookies, now);
      FilterMembers((x: Cookie) => Alive(x, now), cookies, c);
    } else {
      var n := |headers| - 1;
      var last := CookieOf(headers[n], request, now);
      CapturedExactly(cookies, history, headers[..n], request, now, c);
      var before := Batch(cookies, history, headers[..n], request, now).value;
      StoredDistinct(before.cookies, last, now);
      SlotsAre(headers[..n], request, now, last);
      RenewedLast(headers, request, now, c);
      NotYetSet(headers[..n], request, now, last, c);
    }
  }

  /** What was set before is not for the name and path of a later header. */
  lemma NotYetSet(headers: seq<SetCookie>, request: Bytes, now: int, last: Cookie, c: Cookie)
    requires !Renewed(headers, request, now, last)
    ensures SetAlive(headers, request, now, c) ==> c.name != last.name || c.path != last.path
  {
    hide CookieOf;
  }

  /** The values that a batch adds to the history are those of its headers. */
  lemma {:induction false} RememberedExactly(cookies: seq<Cookie>, history: seq<Bytes>, headers: seq<SetCookie>, request: Bytes, now: int, v: Bytes)
    requires Batch(cookies, history, headers, request, now).Some?
    ensures v in Batch(cookies, history, headers, request, now).value.history <==>
              v in history || (v != [] && exists k :: 0 <= k < |headers| && headers[k].value == v)
    decreases |headers|
  {
    hide Acceptable, Stored, SlotsOf, AgeGiven, DateGiven, PathGiven, DefaultPath;
    if headers != [] {
      var n := |headers| - 1;
      RememberedExactly(cookies, history, headers[..n], request, now, v);
      assert forall k :: 0 <= k < n ==> headers[..n][k] == headers[k];
      assert CookieOf(headers[n], request, now).value == headers[n].value;
    }
  }

  // ---- Room ----------------------------------------------------------------

  /** A cookie that would be a ninth is refused, and a value that would be the
      seventeenth ever remembered; nothing else is. */
  lemma RoomExactly(cookies: seq<Cookie>, history: seq<Bytes>, c: Cookie, now: int)
    ensures Stored(cookies, c, now).None? <==>
              && (c.expires.Some? ==> now < c.expires.value) && |cookies| >= 8
              && forall k :: 0 <= k < |cookies| ==> cookies[k].name != c.name || cookies[k].path != c.path
    ensures Remembered(history, c.value).None? <==> c.value != [] && c.value !in history && |history| >= 16
    ensures Remembered(history, c.value).Some? ==>
              forall v :: v in Remembered(history, c.value).value <==> v in history || (v == c.value && v != [])
  {
    hide Place;
  }

  // ---- The header ----------------------------------------------------------

  /** The text of a Cookie header (section 4.2.1). */
  function Wire(cookies: seq<Cookie>): Bytes {
    if cookies == [] then []
    else if |cookies| == 1 then cookies[0].name + [61] + cookies[0].value
    else cookies[0].name + [61] + cookies[0].value + [59, 32] + Wire(cookies[1..])
  }

  /** What the size limit is applied to is the length of the header's text. */
  lemma {:induction false} SizeOfWire(cookies: seq<Cookie>)
    ensures JoinedSize(cookies) == |Wire(cookies)|
  {
    if cookies != [] { SizeOfWire(cookies[1..]); }
  }
}
