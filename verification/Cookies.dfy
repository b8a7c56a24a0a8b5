/** Host-only cookie custody (RFC 6265, sections 5.1.4 and 5.4, restricted): what
    a jar keeps, what it sends, and what it must hide. */
module Cookies {
  import opened Prelude
  import opened Encodings
  import opened Scanning
  import R = Redactor

  const MAX_COOKIES: nat := 8
  const MAX_HISTORY: nat := 16
  const MAX_HEADER: nat := 4096
  const MAX_JOINED: nat := 32 * 1024
  const MAX_PATH: nat := 2048
  const MAX_NAME: nat := 256
  const MAX_TIME: int := 0x7FFF_FFFF_FFFF_FFFF
  const SLASH: byte := 47

  datatype Cookie = Cookie(name: Bytes, value: Bytes, path: Bytes, expires: Option<int>)

  // ---- Paths ---------------------------------------------------------------

  predicate PathMatches(cookie: Bytes, request: Bytes) {
    || request == cookie
    || (cookie <= request && cookie != []
        && (cookie[|cookie| - 1] == SLASH || (|request| > |cookie| && request[|cookie|] == SLASH)))
    || (cookie == [] && request != [] && request[0] == SLASH)
  }

  /** The position after the last slash, or zero. */
  function LastSlash(s: Bytes): (k: nat)
    ensures k <= |s|
    ensures k > 0 ==> s[k - 1] == SLASH
    ensures forall j :: k <= j < |s| ==> s[j] != SLASH
  {
    if s == [] then 0 else if s[|s| - 1] == SLASH then |s| else LastSlash(s[..|s| - 1])
  }

  /** The directory of the request path. */
  function DefaultPath(request: Bytes): Bytes {
    if LastSlash(request) > 1 then request[..LastSlash(request) - 1] else [SLASH]
  }

  /** A cookie with the default path is sent back to the request that set it. */
  lemma DefaultPathMatches(request: Bytes)
    requires request != [] && request[0] == SLASH
    ensures PathMatches(DefaultPath(request), request)
  {
  }

  // ---- One Set-Cookie header -----------------------------------------------

  datatype Age = Negative | Seconds(n: nat) | Malformed

  datatype Attribute =
    | Secure
    | HttpOnly
    | PathIs(path: Bytes)
    | SameSite(accepted: bool)
    | Expires(date: Option<int>)
    | MaxAge(age: Age)
    | Foreign(key: nat)

  /** One header, split into name, value and attributes. `nameValid` says that
      the name is a token, `hosted` that it has the `__Host-` prefix. */
  datatype SetCookie = SetCookie(size: nat, nameValid: bool, hosted: bool, name: Bytes, value: Bytes, attributes: seq<Attribute>)

  function Key(a: Attribute): int {
    match a
    case Secure => -1
    case HttpOnly => -2
    case PathIs(_) => -3
    case SameSite(_) => -4
    case Expires(_) => -5
    case MaxAge(_) => -6
    case Foreign(k) => k
  }

  predicate ValueByte(b: byte) {
    b == 33 || 35 <= b <= 43 || 45 <= b <= 58 || 60 <= b <= 91 || 93 <= b <= 126
  }

  predicate Understood(a: Attribute, now: int) {
    match a
    case Secure => true
    case HttpOnly => true
    case PathIs(p) => p != [] && p[0] == SLASH && |p| <= MAX_PATH
    case SameSite(accepted) => accepted
    case Expires(date) => date.Some?
    case MaxAge(age) => age == Negative || (age.Seconds? && age.n <= U64_MAX && now + age.n <= MAX_TIME)
    case Foreign(_) => false
  }

  /** The attribute of a kind, which occurs at most once. */
  predicate Unrepeated(attributes: seq<Attribute>) {
    forall i, j :: 0 <= i < j < |attributes| ==> Key(attributes[i]) != Key(attributes[j])
  }

  function PathGiven(attributes: seq<Attribute>): Option<Bytes> {
    if attributes == [] then None
    else if attributes[|attributes| - 1].PathIs? then Some(attributes[|attributes| - 1].path)
    else PathGiven(attributes[..|attributes| - 1])
  }

  function DateGiven(attributes: seq<Attribute>): Option<int> {
    if attributes == [] then None
    else if attributes[|attributes| - 1].Expires? then attributes[|attributes| - 1].date
    else DateGiven(attributes[..|attributes| - 1])
  }

  function AgeGiven(attributes: seq<Attribute>, now: int): Option<int> {
    if attributes == [] then None
    else
      var a := attributes[|attributes| - 1];
      if a.MaxAge? then Some(if a.age.Seconds? then now + a.age.n else now)
      else AgeGiven(attributes[..|attributes| - 1], now)
  }

  predicate Acceptable(h: SetCookie, now: int) {
    && h.size <= MAX_HEADER
    && h.name != [] && |h.name| <= MAX_NAME && h.nameValid
    && |h.value| <= h.size
    && (forall k :: 0 <= k < |h.value| ==> ValueByte(h.value[k]))
    && Fit(h.attributes, now)
    && (exists k :: 0 <= k < |h.attributes| && h.attributes[k] == Secure)
    && (h.hosted ==> PathGiven(h.attributes) == Some([SLASH]))
  }

  /** Max-Age takes precedence over Expires. */
  function CookieOf(h: SetCookie, request: Bytes, now: int): Cookie {
    Cookie(h.name, h.value,
           if PathGiven(h.attributes).Some? then PathGiven(h.attributes).value else DefaultPath(request),
           if AgeGiven(h.attributes, now).Some? then AgeGiven(h.attributes, now) else DateGiven(h.attributes))
  }

  /** Read one header, attribute by attribute. */
  method Parse(h: SetCookie, request: Bytes, now: int) returns (r: Result<Cookie>)
    requires |h.value| <= h.size
    ensures r.Ok? <==> Acceptable(h, now)
    ensures r.Ok? ==> r.value == CookieOf(h, request, now)
    ensures r.Err? ==> r.error == LimitExceeded || r.error == AuthProfileUnsupported
  {
    if h.size > MAX_HEADER { return Err(LimitExceeded); }
    if h.name == [] || |h.name| > MAX_NAME || !h.nameValid || exists k :: 0 <= k < |h.value| && !ValueByte(h.value[k]) {
      return Err(AuthProfileUnsupported);
    }
    var read := ReadAttributes(h.attributes, now);
    if read.Err? { return Err(read.error); }
    var (secure, path, expires) := read.value;
    if !secure || (h.hosted && path != Some([SLASH])) { return Err(AuthProfileUnsupported); }
    return Ok(Cookie(h.name, h.value, if path.Some? then path.value else DefaultPath(request), expires));
  }

  predicate Fit(attributes: seq<Attribute>, now: int) {
    Unrepeated(attributes) && forall k :: 0 <= k < |attributes| ==> Understood(attributes[k], now)
  }

  /** Whether the cookie is secure, its path if given, and its expiry if any. */
  method ReadAttributes(attributes: seq<Attribute>, now: int) returns (r: Result<(bool, Option<Bytes>, Option<int>)>)
    ensures r.Ok? <==> Fit(attributes, now)
    ensures r.Ok? ==> r.value == (exists k :: 0 <= k < |attributes| && attributes[k] == Secure, PathGiven(attributes),
                                  if AgeGiven(attributes, now).Some? then AgeGiven(attributes, now) else DateGiven(attributes))
    ensures r.Err? ==> r.error == LimitExceeded || r.error == AuthProfileUnsupported
  {
    hide Understood, Key;
    var seen: set<int> := {};
    var secure := false;
    var path: Option<Bytes>, date: Option<int>, age: Option<int> := None, None, None;
    for k := 0 to |attributes|
      invariant seen == set j | 0 <= j < k :: Key(attributes[j])
      invariant Fit(attributes[..k], now)
      invariant secure <==> exists j :: 0 <= j < k && attributes[j] == Secure
      invariant path == PathGiven(attributes[..k]) && date == DateGiven(attributes[..k]) && age == AgeGiven(attributes[..k], now)
    {
      var a := attributes[k];
      assert attributes[..k + 1][..k] == attributes[..k];
      if Key(a) in seen { return Err(AuthProfileUnsupported); }
      seen := seen + {Key(a)};
      if !Understood(a, now) {
        return Err(if a.MaxAge? && a.age.Seconds? && a.age.n <= U64_MAX then LimitExceeded else AuthProfileUnsupported);
      }
      match a {
        case Secure => secure := true;
        case PathIs(p) => path := Some(p);
        case Expires(d) => date := d;
        case MaxAge(given) => age := Some(if given.Seconds? then now + given.n else now);
        case _ =>
      }
    }
    assert attributes[..|attributes|] == attributes;
    return Ok((secure, path, if age.Some? then age else date));
  }

  // ---- The jar -------------------------------------------------------------

  predicate Alive(c: Cookie, now: int) {
    c.expires.None? || c.expires.value > now
  }

  function Unexpired(cookies: seq<Cookie>, now: int): seq<Cookie> {
    Filter((c: Cookie) => Alive(c, now), cookies)
  }

  predicate SameSlot(a: Cookie, b: Cookie) {
    a.name == b.name && a.path == b.path
  }

  predicate DistinctSlots(cookies: seq<Cookie>) {
    forall i, j :: 0 <= i < j < |cookies| ==> !SameSlot(cookies[i], cookies[j])
  }

  /** Every nonempty value that can be sent is in the history. */
  predicate Covered(cookies: seq<Cookie>, history: seq<Bytes>) {
    forall k :: 0 <= k < |cookies| && cookies[k].value != [] ==> cookies[k].value in history
  }

  predicate Hidden(history: seq<Bytes>) {
    && |history| <= MAX_HISTORY
    && (forall k :: 0 <= k < |history| ==> 0 < |history[k]| <= MAX_HEADER)
    && (forall i, j :: 0 <= i < j < |history| ==> history[i] != history[j])
  }

  predicate Kept(cookies: seq<Cookie>, history: seq<Bytes>) {
    |cookies| <= MAX_COOKIES && DistinctSlots(cookies) && Covered(cookies, history) && Hidden(history)
  }

  /** The place of a cookie with the same name and path, or the end. */
  function Place(cookies: seq<Cookie>, c: Cookie): (k: nat)
    ensures k <= |cookies|
    ensures k < |cookies| ==> SameSlot(cookies[k], c)
    ensures forall j :: 0 <= j < k ==> !SameSlot(cookies[j], c)
  {
    if cookies == [] || SameSlot(cookies[0], c) then 0 else Place(cookies[1..], c) + 1
  }

  /** Store one cookie: an expired one deletes, another replaces in place. */
  function Stored(cookies: seq<Cookie>, c: Cookie, now: int): Option<seq<Cookie>> {
    var k := Place(cookies, c);
    if !Alive(c, now) then Some(if k < |cookies| then cookies[..k] + cookies[k + 1..] else cookies)
    else if k < |cookies| then Some(cookies[k := c])
    else if |cookies| >= MAX_COOKIES then None
    else Some(cookies + [c])
  }

  function Remembered(history: seq<Bytes>, value: Bytes): Option<seq<Bytes>> {
    if value == [] || value in history then Some(history)
    else if |history| >= MAX_HISTORY then None
    else Some(history + [value])
  }

  /** The cookie stored under a name and path, if any. */
  function Lookup(cookies: seq<Cookie>, c: Cookie): Option<Cookie> {
    if Place(cookies, c) < |cookies| then Some(cookies[Place(cookies, c)]) else None
  }

  /** With distinct slots, a cookie's place is wherever its slot occurs. */
  lemma LookupAt(cookies: seq<Cookie>, q: Cookie, i: nat)
    requires DistinctSlots(cookies) && i < |cookies| && SameSlot(cookies[i], q)
    ensures Lookup(cookies, q) == Some(cookies[i]) && Place(cookies, q) == i
  {
    hide Place;
    assert Place(cookies, q) >= i;
  }

  lemma LookupNone(cookies: seq<Cookie>, q: Cookie)
    requires forall i :: 0 <= i < |cookies| ==> !SameSlot(cookies[i], q)
    ensures Lookup(cookies, q) == None
  {
    hide Place;
  }

  /** Storing keeps names and paths distinct. */
  lemma StoredDistinct(cookies: seq<Cookie>, c: Cookie, now: int)
    requires DistinctSlots(cookies) && Stored(cookies, c, now).Some?
    ensures DistinctSlots(Stored(cookies, c, now).value)
    ensures forall x :: x in Stored(cookies, c, now).value <==>
              (x == c && Alive(c, now)) || (x in cookies && !SameSlot(x, c))
  {
    hide Place;
    var k := Place(cookies, c);
    var s := Stored(cookies, c, now).value;
    forall x ensures x in s <==> (x == c && Alive(c, now)) || (x in cookies && !SameSlot(x, c)) {
      if x in cookies && !SameSlot(x, c) {
        var i :| 0 <= i < |cookies| && cookies[i] == x;
        if !Alive(c, now) && k < |cookies| && i > k { assert s[i - 1] == x; } else { assert s[i] == x; }
      }
      if x in s {
        var i :| 0 <= i < |s| && s[i] == x;
        if !Alive(c, now) && k < |cookies| && i >= k { assert s[i] == cookies[i + 1]; }
      }
      if k < |cookies| && Alive(c, now) { assert s[k] == c; }
    }
  }

  /** Storing sets or deletes exactly its own name and path. */
  lemma StoredLookup(cookies: seq<Cookie>, c: Cookie, now: int, q: Cookie)
    requires DistinctSlots(cookies) && Stored(cookies, c, now).Some?
    ensures var s := Stored(cookies, c, now).value;
            && DistinctSlots(s)
            && Lookup(s, q) == if SameSlot(q, c) then (if Alive(c, now) then Some(c) else None) else Lookup(cookies, q)
  {
    hide Stored, Place, Lookup;
    var s := Stored(cookies, c, now).value;
    StoredDistinct(cookies, c, now);
    if i :| 0 <= i < |s| && SameSlot(s[i], q) {
      LookupAt(s, q, i);
      assert s[i] in s;
      if !SameSlot(q, c) {
        var j :| 0 <= j < |cookies| && cookies[j] == s[i];
        LookupAt(cookies, q, j);
      }
    } else {
      LookupNone(s, q);
      if SameSlot(q, c) {
        assert Alive(c, now) ==> c in s;
      } else {
        forall j | 0 <= j < |cookies| ensures !SameSlot(cookies[j], q) { assert cookies[j] in cookies; }
        LookupNone(cookies, q);
      }
    }
  }

  /** Every stored value is remembered. */
  lemma StoredKept(cookies: seq<Cookie>, history: seq<Bytes>, c: Cookie, now: int)
    requires Kept(cookies, history) && |c.value| <= MAX_HEADER
    requires Remembered(history, c.value).Some? && Stored(cookies, c, now).Some?
    ensures Kept(Stored(cookies, c, now).value, Remembered(history, c.value).value)
  {
    StoredLookup(cookies, c, now, c);
    var h := Remembered(history, c.value).value;
    var s := Stored(cookies, c, now).value;
    assert forall v :: v in history ==> v in h;
    assert c.value != [] ==> c.value in h;
    forall k | 0 <= k < |s| && s[k].value != [] ensures s[k].value in h {
      assert s[k] == c || s[k] in cookies;
    }
  }

  // ---- Sending: longest path first, stable ---------------------------------

  function Placed(sorted: seq<Cookie>, c: Cookie): seq<Cookie> {
    if sorted == [] then [c]
    else if |sorted[0].path| >= |c.path| then [sorted[0]] + Placed(sorted[1..], c)
    else [c] + sorted
  }

  function ByPath(cookies: seq<Cookie>): seq<Cookie> {
    if cookies == [] then [] else Placed(ByPath(cookies[..|cookies| - 1]), cookies[|cookies| - 1])
  }

  predicate LongestFirst(cookies: seq<Cookie>) {
    forall i, j :: 0 <= i < j < |cookies| ==> |cookies[i].path| >= |cookies[j].path|
  }

  function OfLength(cookies: seq<Cookie>, n: nat): seq<Cookie> {
    Filter((c: Cookie) => |c.path| == n, cookies)
  }

  lemma {:induction false} PlacedMember(sorted: seq<Cookie>, c: Cookie, x: Cookie)
    ensures x in Placed(sorted, c) <==> x == c || x in sorted
  {
    if sorted != [] {
      assert x in sorted <==> x == sorted[0] || x in sorted[1..];
      PlacedMember(sorted[1..], c, x);
    }
  }

  lemma {:induction false} PlacedOrder(sorted: seq<Cookie>, c: Cookie)
    requires LongestFirst(sorted)
    ensures LongestFirst(Placed(sorted, c))
  {
    if sorted != [] && |sorted[0].path| >= |c.path| {
      PlacedOrder(sorted[1..], c);
      var rest := Placed(sorted[1..], c);
      forall k | 0 <= k < |rest| ensures |sorted[0].path| >= |rest[k].path| {
        PlacedMember(sorted[1..], c, rest[k]);
        assert rest[k] in rest;
      }
    }
  }

  lemma {:induction false} PlacedStable(sorted: seq<Cookie>, c: Cookie, n: nat)
    requires LongestFirst(sorted)
    ensures OfLength(Placed(sorted, c), n) == OfLength(sorted + [c], n)
  {
    var p := (x: Cookie) => |x.path| == n;
    FilterAppend(p, sorted, [c]);
    FilterOne(p, c);
    if sorted != [] {
      if |sorted[0].path| >= |c.path| {
        PlacedStable(sorted[1..], c, n);
        FilterAppend(p, sorted[1..], [c]);
        FilterAppend(p, [sorted[0]], Placed(sorted[1..], c));
        FilterAppend(p, [sorted[0]], sorted[1..]);
        assert [sorted[0]] + sorted[1..] == sorted;
      } else {
        FilterAppend(p, [c], sorted);
        if |c.path| == n { FilterNone(p, sorted); }
      }
    }
  }

  /** Cookies with equally long paths keep their order of creation; nothing is
      lost, added or repeated. */
  lemma {:induction false} ByPathStable(cookies: seq<Cookie>, n: nat)
    ensures LongestFirst(ByPath(cookies))
    ensures OfLength(ByPath(cookies), n) == OfLength(cookies, n)
    decreases |cookies|
  {
    if cookies != [] {
      var k := |cookies| - 1;
      var p := (x: Cookie) => |x.path| == n;
      ByPathStable(cookies[..k], n);
      PlacedOrder(ByPath(cookies[..k]), cookies[k]);
      PlacedStable(ByPath(cookies[..k]), cookies[k], n);
      FilterAppend(p, ByPath(cookies[..k]), [cookies[k]]);
      FilterAppend(p, cookies[..k], [cookies[k]]);
      assert cookies[..k] + [cookies[k]] == cookies;
    }
  }

  /** What may be sent to a path: unexpired, matching, in sending order. */
  function Selection(cookies: seq<Cookie>, request: Bytes, now: int): seq<Cookie> {
    ByPath(Filter((c: Cookie) => PathMatches(c.path, request), Unexpired(cookies, now)))
  }

  function JoinedSize(cookies: seq<Cookie>): nat {
    if cookies == [] then 0
    else |cookies[0].name| + 1 + |cookies[0].value| + (if |cookies| > 1 then 2 else 0) + JoinedSize(cookies[1..])
  }

  lemma {:induction false} ByPathMembers(cookies: seq<Cookie>, c: Cookie)
    ensures c in ByPath(cookies) <==> c in cookies
    decreases |cookies|
  {
    if cookies != [] {
      var k := |cookies| - 1;
      ByPathMembers(cookies[..k], c);
      PlacedMember(ByPath(cookies[..k]), cookies[k], c);
      assert cookies == cookies[..k] + [cookies[k]];
    }
  }

  /** Exactly the unexpired, path-matching cookies are selected, longest path
      first, in creation order among equals. */
  lemma SelectionExactly(cookies: seq<Cookie>, request: Bytes, now: int, c: Cookie)
    ensures c in Selection(cookies, request, now) <==> c in cookies && Alive(c, now) && PathMatches(c.path, request)
    ensures LongestFirst(Selection(cookies, request, now))
  {
    var matching := Filter((x: Cookie) => PathMatches(x.path, request), Unexpired(cookies, now));
    ByPathMembers(matching, c);
    FilterMembers((x: Cookie) => PathMatches(x.path, request), Unexpired(cookies, now), c);
    FilterMembers((x: Cookie) => Alive(x, now), cookies, c);
    ByPathStable(matching, 0);
  }

  // ---- The jar object ------------------------------------------------------

  class CookieJar {
    const origin: int
    var cookies: seq<Cookie>
    var history: seq<Bytes>

    predicate Valid()
      reads this
    {
      Kept(cookies, history)
    }

    constructor (origin: int)
      ensures Valid() && this.origin == origin && cookies == [] && history == []
    {
      this.origin, cookies, history := origin, [], [];
    }

    /** Forget everything. */
    method Clear()
      modifies this
      ensures Valid() && cookies == [] && history == []
    {
      cookies, history := [], [];
    }

    /** Take over a response's cookies, all or none. A rejected batch leaves the
        jar empty; an accepted one returns a redactor for everything it ever held. */
    method Capture(target: int, request: Bytes, headers: seq<SetCookie>, unsupported: bool, now: int) returns (r: Result<R.Redactor>)
      requires Valid() && forall k :: 0 <= k < |headers| ==> |headers[k].value| <= headers[k].size
      modifies this
      ensures Valid()
      ensures r.Err? ==> cookies == [] && history == []
      ensures r.Ok? ==> old(history) <= history
      ensures r.Ok? ==> fresh(r.value) && r.value.Valid() && r.value.patterns == R.Arranged(R.AllSpellings(history))
      ensures r.Ok? ==> R.Suppresses(r.value.patterns, history)
      ensures r.Ok? <==> |headers| <= MAX_COOKIES && !unsupported && target == origin
                         && Batch(old(cookies), old(history), headers, request, now).Some?
                         && R.TotalSize(R.Arranged(R.AllSpellings(Batch(old(cookies), old(history), headers, request, now).value.history))) <= R.MAX_PATTERN_BYTES
      ensures r.Ok? ==> Contents(cookies, history) == Batch(old(cookies), old(history), headers, request, now).value
    {
      hide R.Arranged, R.AllSpellings, R.Suppresses, Batch;
      if |headers| > MAX_COOKIES {
        Clear();
        return Err(LimitExceeded);
      }
      if unsupported {
        Clear();
        return Err(AuthProfileUnsupported);
      }
      r := CaptureInner(target, request, headers, now);
      if r.Err? { Clear(); }
    }

    /** Take over a batch, stopping at the first header that is refused. */
    method CaptureInner(target: int, request: Bytes, headers: seq<SetCookie>, now: int) returns (r: Result<R.Redactor>)
      requires Valid() && forall k :: 0 <= k < |headers| ==> |headers[k].value| <= headers[k].size
      modifies this
      ensures Valid()
      ensures r.Ok? ==> old(history) <= history
      ensures r.Ok? ==> fresh(r.value) && r.value.Valid() && r.value.patterns == R.Arranged(R.AllSpellings(history))
      ensures r.Ok? ==> R.Suppresses(r.value.patterns, history)
      ensures r.Ok? <==> target == origin && Batch(old(cookies), old(history), headers, request, now).Some?
                         && R.TotalSize(R.Arranged(R.AllSpellings(Batch(old(cookies), old(history), headers, request, now).value.history))) <= R.MAX_PATTERN_BYTES
      ensures r.Ok? ==> Contents(cookies, history) == Batch(old(cookies), old(history), headers, request, now).value
    {
      hide R.Arranged, R.AllSpellings, R.Suppresses, R.TotalSize, Stored, Remembered, Acceptable, CookieOf, Kept, Alive;
      if target != origin { return Err(PolicyDenied); }
      var candidate, values := Unexpired(cookies, now), history;
      UnexpiredKept(cookies, history, now);
      var seen: set<(Bytes, Bytes)> := {};
      for k := 0 to |headers|
        invariant Kept(candidate, values) && history <= values
        invariant unchanged(this)
        invariant Batch(cookies, history, headers[..k], request, now) == Some(Contents(candidate, values))
        invariant seen == SlotsOf(headers[..k], request, now)
      {
        assert headers[..k + 1][..k] == headers[..k];
        var cookie := Parse(headers[k], request, now);
        if cookie.Err? {
          BatchFails(cookies, history, headers, request, now, k + 1);
          return Err(cookie.error);
        }
        var c := cookie.value;
        if (c.name, c.path) in seen {
          BatchFails(cookies, history, headers, request, now, k + 1);
          return Err(AuthProfileUnsupported);
        }
        seen := seen + {(c.name, c.path)};
        var remembered := Remembered(values, c.value);
        var stored := Stored(candidate, c, now);
        if remembered.None? || stored.None? {
          BatchFails(cookies, history, headers, request, now, k + 1);
          return Err(LimitExceeded);
        }
        AcceptedSize(headers[k], request, now);
        StoredKept(candidate, values, c, now);
        RememberedPrefix(values, c.value);
        candidate, values := stored.value, remembered.value;
      }
      assert headers[..|headers|] == headers;
      KeptHidden(candidate, values);
      var redactor := R.Redactor.New(values);
      if redactor.Err? { return Err(redactor.error); }
      cookies, history := candidate, values;
      return redactor;
    }

    /** The cookies to send to a path, in order. */
    method Header(target: int, request: Bytes, now: int) returns (r: Result<Option<seq<Cookie>>>)
      requires Valid()
      modifies this`cookies
      ensures Valid()
      ensures cookies == if target == origin then Unexpired(old(cookies), now) else old(cookies)
      ensures target != origin ==> r == Err(PolicyDenied)
      ensures target == origin ==>
                var s := Selection(old(cookies), request, now);
                r == if s == [] then Ok(None) else if JoinedSize(s) > MAX_JOINED then Err(LimitExceeded) else Ok(Some(s))
    {
      hide Kept, JoinedSize;
      if target != origin { return Err(PolicyDenied); }
      UnexpiredKept(cookies, history, now);
      cookies := Unexpired(cookies, now);
      var selected := SortByPath(Filter((c: Cookie) => PathMatches(c.path, request), cookies));
      if selected == [] { return Ok(None); }
      if JoinedSize(selected) > MAX_JOINED { return Err(LimitExceeded); }
      return Ok(Some(selected));
    }

    static method SortByPath(selected: seq<Cookie>) returns (sorted: seq<Cookie>)
      ensures sorted == ByPath(selected)
    {
      sorted := [];
      for k := 0 to |selected|
        invariant sorted == ByPath(selected[..k])
      {
        assert selected[..k + 1][..k] == selected[..k];
        sorted := Placed(sorted, selected[k]);
      }
      assert selected[..|selected|] == selected;
    }
  }

  datatype Contents = Contents(cookies: seq<Cookie>, history: seq<Bytes>)

  function SlotsOf(headers: seq<SetCookie>, request: Bytes, now: int): set<(Bytes, Bytes)> {
    if headers == [] then {}
    else
      var c := CookieOf(headers[|headers| - 1], request, now);
      SlotsOf(headers[..|headers| - 1], request, now) + {(c.name, c.path)}
  }

  /** The jar after a whole batch, or `None` when any part of it is refused. */
  function Batch(cookies: seq<Cookie>, history: seq<Bytes>, headers: seq<SetCookie>, request: Bytes, now: int): Option<Contents> {
    if headers == [] then Some(Contents(Unexpired(cookies, now), history))
    else
      var n := |headers| - 1;
      var before := Batch(cookies, history, headers[..n], request, now);
      if before.None? || !Acceptable(headers[n], now) then None
      else
        var c := CookieOf(headers[n], request, now);
        var h, s := Remembered(before.value.history, c.value), Stored(before.value.cookies, c, now);
        if (c.name, c.path) in SlotsOf(headers[..n], request, now) || h.None? || s.None? then None
        else Some(Contents(s.value, h.value))
  }

  lemma {:induction false} BatchFails(cookies: seq<Cookie>, history: seq<Bytes>, headers: seq<SetCookie>, request: Bytes, now: int, k: nat)
    requires k <= |headers| && Batch(cookies, history, headers[..k], request, now).None?
    ensures Batch(cookies, history, headers, request, now).None?
    decreases |headers|
  {
    hide Batch;
    var n := |headers|;
    if k < n {
      assert headers[..n - 1][..k] == headers[..k];
      BatchFails(cookies, history, headers[..n - 1], request, now, k);
      BatchLonger(cookies, history, headers, request, now);
    } else {
      assert headers[..k] == headers;
    }
  }

  lemma BatchLonger(cookies: seq<Cookie>, history: seq<Bytes>, headers: seq<SetCookie>, request: Bytes, now: int)
    requires headers != [] && Batch(cookies, history, headers[..|headers| - 1], request, now).None?
    ensures Batch(cookies, history, headers, request, now).None?
  {
    hide Acceptable, CookieOf, Remembered, Stored, SlotsOf, Unexpired;
  }

  lemma AcceptedSize(h: SetCookie, request: Bytes, now: int)
    requires Acceptable(h, now)
    ensures |CookieOf(h, request, now).value| <= MAX_HEADER
  {
  }

  lemma RememberedPrefix(history: seq<Bytes>, value: Bytes)
    requires Remembered(history, value).Some?
    ensures history <= Remembered(history, value).value
  {
  }

  lemma KeptHidden(cookies: seq<Cookie>, history: seq<Bytes>)
    requires Kept(cookies, history)
    ensures Hidden(history)
  {
  }

  lemma {:induction false} UnexpiredDistinct(cookies: seq<Cookie>, now: int)
    requires DistinctSlots(cookies)
    ensures DistinctSlots(Unexpired(cookies, now)) && |Unexpired(cookies, now)| <= |cookies|
  {
    if cookies != [] {
      UnexpiredDistinct(cookies[1..], now);
      var rest := Unexpired(cookies[1..], now);
      forall k | 0 <= k < |rest| ensures !SameSlot(cookies[0], rest[k]) {
        FilterMembers((c: Cookie) => Alive(c, now), cookies[1..], rest[k]);
        assert rest[k] in rest;
      }
    }
  }

  lemma UnexpiredKept(cookies: seq<Cookie>, history: seq<Bytes>, now: int)
    requires Kept(cookies, history)
    ensures Kept(Unexpired(cookies, now), history)
  {
    UnexpiredDistinct(cookies, now);
    var rest := Unexpired(cookies, now);
    forall k | 0 <= k < |rest| && rest[k].value != [] ensures rest[k].value in history {
      FilterMembers((c: Cookie) => Alive(c, now), cookies, rest[k]);
      assert rest[k] in rest && rest[k] in cookies;
    }
  }

  // ---- What is sent is hidden ----------------------------------------------

  /** No run of bytes that the jar's redactor copies contains a nonempty value that
      the jar can send, in any spelling, */
  lemma SentIsSuppressed(cookies: seq<Cookie>, history: seq<Bytes>, patterns: seq<Bytes>, request: Bytes, now: int, c: Cookie, e: Bytes,
                         s: Bytes, i: nat, j: nat)
    requires Kept(cookies, history) && R.Suppresses(patterns, history)
    requires c in Selection(cookies, request, now) && c.value != [] && R.IsSpelling(e, c.value)
    requires i <= j <= |Scan(R.Finder(patterns), s)| && R.AllLiteral(Scan(R.Finder(patterns), s)[i..j])
    ensures !R.Occurs(e, Source(Scan(R.Finder(patterns), s)[i..j]))
  {
    hide Scan, R.Occurs, R.AllLiteral, R.IsSpelling, R.Suppresses, Selection;
    SentIsRemembered(cookies, history, request, now, c);
    R.SecretsSuppressed(patterns, history, c.value, e, s, i, j);
  }

  lemma SentIsRemembered(cookies: seq<Cookie>, history: seq<Bytes>, request: Bytes, now: int, c: Cookie)
    requires Kept(cookies, history) && c in Selection(cookies, request, now) && c.value != []
    ensures c.value in history
  {
    hide Selection;
    SelectionExactly(cookies, request, now, c);
    var k :| 0 <= k < |cookies| && cookies[k] == c;
  }

  /** and the whole redacted text contains none, markers included, that does not
      touch the marker's own text. */
  lemma SentIsGone(cookies: seq<Cookie>, history: seq<Bytes>, patterns: seq<Bytes>, request: Bytes, now: int, c: Cookie, e: Bytes, s: Bytes)
    requires Kept(cookies, history) && R.Suppresses(patterns, history)
    requires c in Selection(cookies, request, now) && c.value != [] && R.IsSpelling(e, c.value) && !R.TouchesMarker(e)
    ensures !R.Occurs(e, Emit(Scan(R.Finder(patterns), s)))
  {
    hide Scan, R.Occurs, R.IsSpelling, Selection, Emit, R.TouchesMarker;
    SentIsRemembered(cookies, history, request, now, c);
    R.OutputHoldsNone(patterns, s, e);
  }

  /** A live cookie that names no path is sent back to the request that set it. */
  lemma CapturedIsSent(cookies: seq<Cookie>, h: SetCookie, request: Bytes, now: int)
    requires DistinctSlots(cookies) && PathGiven(h.attributes).None? && request != [] && request[0] == SLASH
    requires Alive(CookieOf(h, request, now), now) && Stored(cookies, CookieOf(h, request, now), now).Some?
    ensures CookieOf(h, request, now) in Selection(Stored(cookies, CookieOf(h, request, now), now).value, request, now)
  {
    hide Stored, Selection, PathMatches, DefaultPath;
    var c := CookieOf(h, request, now);
    DefaultPathMatches(request);
    StoredDistinct(cookies, c, now);
    SelectionExactly(Stored(cookies, c, now).value, request, now, c);
  }
}
