/** Header filtering and the headers the gateway adds
    (withoutHopByHopHeaders in backend/internal/tunnels/public_handler.go and
    agent/internal/gatewayclient/local_http.go; publicRequestHeaders). */
module HeaderFilters {
  import opened Protocol

  const CONNECTION := "Connection"

  /** The fixed names, in the canonical form under which Del looks them up. */
  const FIXED: seq<string> := [
    CONNECTION, "Proxy-Connection", "Keep-Alive", "Proxy-Authenticate", "Proxy-Authorization",
    "Te", "Trailer", "Transfer-Encoding", "Upgrade"]

  // ----- Names -----

  function Lower(c: char): char { if 'A' <= c <= 'Z' then (c as int + 32) as char else c }
  function Upper(c: char): char { if 'a' <= c <= 'z' then (c as int - 32) as char else c }

  predicate IsToken(c: char) {
    'a' <= c <= 'z' || 'A' <= c <= 'Z' || '0' <= c <= '9' || c in "!#$%&'*+-.^_`|~"
  }

  function Cased(name: string, upper: bool): string {
    if name == "" then ""
    else [if upper then Upper(name[0]) else Lower(name[0])] + Cased(name[1..], name[0] == '-')
  }

  /** textproto.CanonicalMIMEHeaderKey. */
  function Canonical(name: string): string {
    if forall i :: 0 <= i < |name| ==> IsToken(name[i]) then Cased(name, true) else name
  }

  /** unicode.IsSpace. */
  predicate IsSpace(c: char) {
    var n := c as int;
    9 <= n <= 13 || n in {0x20, 0x85, 0xa0, 0x1680, 0x2028, 0x2029, 0x202f, 0x205f, 0x3000} || 0x2000 <= n <= 0x200a
  }

  function Trimmed(s: string): string {
    if s != "" && IsSpace(s[0]) then Trimmed(s[1..])
    else if s != "" && IsSpace(s[|s| - 1]) then Trimmed(s[..|s| - 1])
    else s
  }

  function Split(s: string): (parts: seq<string>)
    ensures |parts| > 0
  {
    if s == "" then [""]
    else
      var rest := Split(s[1..]);
      if s[0] == ',' then [""] + rest else [[s[0]] + rest[0]] + rest[1..]
  }

  function LowerCase(s: string): string { seq(|s|, i requires 0 <= i < |s| => Lower(s[i])) }

  function Rejoined(parts: seq<string>): string
    requires |parts| > 0
  {
    if |parts| == 1 then parts[0] else parts[0] + "," + Rejoined(parts[1..])
  }

  /** Splitting loses nothing and leaves no comma: the parts are what stands between the commas. */
  lemma {:induction false} SplitExact(s: string)
    ensures Rejoined(Split(s)) == s
    ensures forall part :: part in Split(s) ==> ',' !in part
  {
    if s != "" {
      SplitExact(s[1..]);
      var rest := Split(s[1..]);
      if s[0] == ',' {
        assert ([""] + rest)[1..] == rest;
        assert s == "" + "," + s[1..];
      } else {
        var parts := [[s[0]] + rest[0]] + rest[1..];
        assert parts[1..] == rest[1..];
        assert s == [s[0]] + s[1..];
      }
    }
  }

  /** Trimming takes the spaces from both ends and nothing else. */
  lemma {:induction false} TrimmedExact(s: string) returns (from: nat, to: nat)
    ensures from <= to <= |s| && Trimmed(s) == s[from..to]
    ensures forall i :: 0 <= i < from || to <= i < |s| ==> IsSpace(s[i])
    ensures from < to ==> !IsSpace(s[from]) && !IsSpace(s[to - 1])
    decreases |s|
  {
    if s != "" && IsSpace(s[0]) {
      var f, t := TrimmedExact(s[1..]);
      from, to := f + 1, t + 1;
      assert forall i :: 1 <= i < |s| ==> s[i] == s[1..][i - 1];
      assert s[1..][f..t] == s[from..to];
    } else if s != "" && IsSpace(s[|s| - 1]) {
      from, to := TrimmedExact(s[..|s| - 1]);
      assert s[..|s| - 1][from..to] == s[from..to];
    } else {
      from, to := 0, |s|;
    }
  }

  /** The case each letter of a canonical name has: upper at the start and after a dash. */
  predicate WellCased(name: string, upper: bool) {
    forall i :: 0 <= i < |name| ==>
      var c := name[i];
      if (if i == 0 then upper else name[i - 1] == '-') then !('a' <= c <= 'z') else !('A' <= c <= 'Z')
  }

  lemma {:induction false} CasedExact(name: string, upper: bool)
    ensures var cased := Cased(name, upper);
            |cased| == |name| && LowerCase(cased) == LowerCase(name) && WellCased(cased, upper)
  {
    if name != "" {
      CasedExact(name[1..], name[0] == '-');
      var cased, rest := Cased(name, upper), Cased(name[1..], name[0] == '-');
      assert cased[1..] == rest && (cased[0] == '-' <==> name[0] == '-');
      assert LowerCase(cased) == [Lower(name[0])] + LowerCase(rest);
      assert LowerCase(name) == [Lower(name[0])] + LowerCase(name[1..]);
    }
  }

  /** Looking a header up ignores the case of its name: a name of token characters
      is brought into the one spelling with capitals at the start and after dashes,
      and any other name is looked up as it is. */
  lemma CanonicalExact(name: string)
    ensures (exists i :: 0 <= i < |name| && !IsToken(name[i])) ==> Canonical(name) == name
    ensures (forall i :: 0 <= i < |name| ==> IsToken(name[i])) ==>
              LowerCase(Canonical(name)) == LowerCase(name) && WellCased(Canonical(name), true)
  {
    CasedExact(name, true);
  }

  // ----- Filtering -----

  function ConnectionValues(h: Headers): seq<string> { if CONNECTION in h then h[CONNECTION] else [] }

  /** The names one Connection value lists, as Del looks them up. */
  function Names(value: string): seq<string> {
    var parts := Split(value);
    seq(|parts|, i requires 0 <= i < |parts| => Canonical(Trimmed(parts[i])))
  }

  predicate ListedIn(values: seq<string>, name: string) {
    exists value :: value in values && name in Names(value)
  }

  /** A header the Connection header lists as meant for this hop only. */
  predicate Listed(h: Headers, name: string) { ListedIn(ConnectionValues(h), name) }

  lemma ListedExactly(h: Headers, name: string)
    ensures Listed(h, name) <==>
              exists value, i :: value in ConnectionValues(h) && 0 <= i < |Split(value)|
                                 && name == Canonical(Trimmed(Split(value)[i]))
  {
    if Listed(h, name) {
      var value :| value in ConnectionValues(h) && name in Names(value);
      var i :| 0 <= i < |Names(value)| && Names(value)[i] == name;
      assert name == Canonical(Trimmed(Split(value)[i]));
    } else {
      forall value, i | value in ConnectionValues(h) && 0 <= i < |Split(value)|
        ensures name != Canonical(Trimmed(Split(value)[i]))
      {
        assert Names(value)[i] == Canonical(Trimmed(Split(value)[i]));
      }
    }
  }

  predicate HopByHop(h: Headers, name: string) { name in FIXED || Listed(h, name) }

  function WithoutHopByHop(h: Headers): Headers {
    map name | name in h && !HopByHop(h, name) :: h[name]
  }

  /** Filtering once is enough: the second filter on the way finds nothing to do. */
  lemma FilterTwice(h: Headers)
    ensures WithoutHopByHop(WithoutHopByHop(h)) == WithoutHopByHop(h)
  {
    var once := WithoutHopByHop(h);
    assert FIXED[0] == CONNECTION;
    assert ConnectionValues(once) == [];
  }

  method DropAll(headers: Headers, names: seq<string>) returns (filtered: Headers)
    ensures filtered == map n | n in headers && n !in names :: headers[n]
  {
    filtered := headers;
    for i := 0 to |names|
      invariant filtered == map n | n in headers && n !in names[..i] :: headers[n]
    {
      filtered := filtered - {names[i]};
      assert names[..i + 1] == names[..i] + [names[i]];
    }
    assert names[..|names|] == names;
  }

  /** Deletes from a clone what Connection lists, then the fixed names. */
  method WithoutHopByHopHeaders(headers: Headers) returns (filtered: Headers)
    ensures filtered == WithoutHopByHop(headers)
    ensures forall name :: name in filtered <==> name in headers && name !in FIXED && !Listed(headers, name)
    ensures forall name :: name in filtered ==> filtered[name] == headers[name]
  {
    filtered := headers;
    var values := ConnectionValues(filtered);
    for i := 0 to |values|
      invariant filtered == map n | n in headers && !ListedIn(values[..i], n) :: headers[n]
    {
      filtered := DropAll(filtered, Names(values[i]));
      assert values[..i + 1] == values[..i] + [values[i]];
      assert forall n :: ListedIn(values[..i + 1], n) <==> ListedIn(values[..i], n) || n in Names(values[i]);
    }
    assert values[..|values|] == values;
    filtered := DropAll(filtered, FIXED);
  }

  // ----- What the gateway sends -----

  /** A public request as it arrives. */
  datatype PublicRequest = PublicRequest(verb: string, path: string, headers: Headers, clientIP: string, host: string,
                                         tls: bool)

  predicate Forwarding(name: string) { "x-forwarded-" <= LowerCase(name) || LowerCase(name) == "forwarded" }

  function IdText(id: Id): string { seq(|id|, i requires 0 <= i < |id| => id[i] as char) }

  function PublicHeaders(p: PublicRequest, id: Id): Headers {
    var kept := WithoutHopByHop(p.headers);
    var own := map name | name in kept && !Forwarding(name) :: kept[name];
    var addressed := if p.clientIP != "" then own["X-Forwarded-For" := [p.clientIP]] else own;
    addressed["X-Forwarded-Host" := [p.host]]
             ["X-Forwarded-Proto" := [if p.tls then "https" else "http"]]
             ["X-Tunnel-Request-Id" := [IdText(id)]]
  }

  function HeadOf(p: PublicRequest, id: Id): RequestHead {
    RequestHead(p.verb, p.path, PublicHeaders(p, id))
  }

  lemma AddedNotFixed(name: string)
    requires name in FIXED
    ensures name != "" && name[0] != 'X'
  {
    var i :| 0 <= i < |FIXED| && FIXED[i] == name;
  }

  /** The agent's filter leaves what the gateway sends alone. */
  lemma PublicHeadersPass(p: PublicRequest, id: Id)
    ensures WithoutHopByHop(PublicHeaders(p, id)) == PublicHeaders(p, id)
  {
    var h := PublicHeaders(p, id);
    forall name | name in h ensures name !in FIXED {
      if name in FIXED {
        AddedNotFixed(name);
      }
    }
    assert FIXED[0] == CONNECTION;
    assert ConnectionValues(h) == [];
  }

  /** Whatever the client claims about forwarding, the local service is told what
      the gateway saw: the one address, host and scheme, and nothing else. */
  lemma ForwardingIsTheGateways(p: PublicRequest, id: Id, name: string)
    requires name in PublicHeaders(p, id) && Forwarding(name)
    ensures || (name == "X-Forwarded-For" && p.clientIP != "" && PublicHeaders(p, id)[name] == [p.clientIP])
            || (name == "X-Forwarded-Host" && PublicHeaders(p, id)[name] == [p.host])
            || (name == "X-Forwarded-Proto" && PublicHeaders(p, id)[name] == [if p.tls then "https" else "http"])
  {
    PlainName();
  }

  lemma PlainName()
    ensures !Forwarding("X-Tunnel-Request-Id")
  {
    var low := LowerCase("X-Tunnel-Request-Id");
    assert low[0] == 'x' && low[2] == 't';
    assert "x-forwarded-"[2] == 'f' && "forwarded"[0] == 'f';
  }

  lemma ForwardedForIsForwarding()
    ensures Forwarding("X-Forwarded-For")
  {
    var low := LowerCase("X-Forwarded-For");
    assert low == "x-forwarded-for";
  }

  /** The names that concern a single connection. */
  predicate OfOneHop(name: string) {
    || name == "Connection" || name == "Proxy-Connection" || name == "Keep-Alive" || name == "Proxy-Authenticate"
    || name == "Proxy-Authorization" || name == "Te" || name == "Trailer" || name == "Transfer-Encoding"
    || name == "Upgrade"
  }

  predicate ForAnyHop(h: Headers) { forall name :: name in h ==> !OfOneHop(name) }

  lemma FixedExactly(name: string)
    ensures name in FIXED <==> OfOneHop(name)
  {
    assert FIXED[0] == "Connection" && FIXED[1] == "Proxy-Connection" && FIXED[2] == "Keep-Alive";
    assert FIXED[3] == "Proxy-Authenticate" && FIXED[4] == "Proxy-Authorization" && FIXED[5] == "Te";
    assert FIXED[6] == "Trailer" && FIXED[7] == "Transfer-Encoding" && FIXED[8] == "Upgrade";
  }

  /** Filtering takes away the nine names, what the Connection header lists, and nothing else. */
  lemma FilteredForAnyHop(h: Headers)
    ensures ForAnyHop(WithoutHopByHop(h))
    ensures forall name :: name in WithoutHopByHop(h) <==> name in h && !Listed(h, name) && !OfOneHop(name)
  {
    forall name { FixedExactly(name); }
  }

  /** A header is about forwarding exactly when, in whatever case, its name is an
      x-forwarded- one or `forwarded`. */
  lemma ForwardingExactly(name: string)
    ensures Forwarding(name) <==>
              (exists rest :: LowerCase(name) == "x-forwarded-" + rest) || LowerCase(name) == "forwarded"
  {
    var low := LowerCase(name);
    if "x-forwarded-" <= low {
      assert low == "x-forwarded-" + low[|"x-forwarded-"|..];
    }
  }

  lemma ForwardedIsForwarding()
    ensures Forwarding("Forwarded")
  {
    assert LowerCase("Forwarded") == "forwarded";
  }

  /** What the local service is told, header by header: the client's own values for
      every header that is not for one hop only, claims nothing about forwarding
      and is not the request's own id; the host, scheme and id of the request; its
      client's address exactly when there is one; and nothing else. */
  lemma ToldExactly(p: PublicRequest, id: Id, name: string)
    ensures var told := WithoutHopByHop(HeadOf(p, id).headers);
            && "X-Forwarded-Host" in told && told["X-Forwarded-Host"] == [p.host]
            && "X-Forwarded-Proto" in told && told["X-Forwarded-Proto"] == [if p.tls then "https" else "http"]
            && "X-Tunnel-Request-Id" in told && told["X-Tunnel-Request-Id"] == [IdText(id)]
            && ("X-Forwarded-For" in told <==> p.clientIP != "")
            && (p.clientIP != "" ==> told["X-Forwarded-For"] == [p.clientIP])
            && "Forwarded" !in told
            && (name !in ["X-Forwarded-Host", "X-Forwarded-Proto", "X-Tunnel-Request-Id", "X-Forwarded-For"] ==>
                  && (name in told <==> name in p.headers && !HopByHop(p.headers, name) && !Forwarding(name))
                  && (name in told ==> told[name] == p.headers[name]))
  {
    PublicHeadersPass(p, id);
    ForwardedForIsForwarding();
    ForwardedIsForwarding();
  }
}
