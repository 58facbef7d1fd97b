/** src/lib.rs `parse_mapping_entry` and src/config.rs `validate`: the grammar of one
    bootstrap_server_mapping entry. */
module Mapping {
  import opened Wire

  type PortNumber = x: int | 0 <= x < 0x1_0000

  // ---- Strings ----

  predicate IsSpace(c: char) {
    var n := c as int;
    || 9 <= n <= 13 || n == 32 || n == 0x85 || n == 0xA0 || n == 0x1680 || 0x2000 <= n <= 0x200A
    || n == 0x2028 || n == 0x2029 || n == 0x202F || n == 0x205F || n == 0x3000
  }

  function TrimStart(s: string): string {
    if s != "" && IsSpace(s[0]) then TrimStart(s[1..]) else s
  }

  function TrimEnd(s: string): string {
    if s != "" && IsSpace(s[|s| - 1]) then TrimEnd(s[..|s| - 1]) else s
  }

  function Trim(s: string): string {
    TrimEnd(TrimStart(s))
  }

  /** The parts between commas; always at least one. */
  function Split(s: string): (r: seq<string>)
    ensures |r| >= 1 && forall i :: 0 <= i < |r| ==> ',' !in r[i]
  {
    if s == "" then [""]
    else
      var r := Split(s[1..]);
      if s[0] == ',' then [""] + r else [[s[0]] + r[0]] + r[1..]
  }

  /** `rsplit_once(':')`: what is before and after the last colon. */
  function SplitHost(s: string): Option<(string, string)> {
    if s == "" then None
    else if s[|s| - 1] == ':' then Some((s[..|s| - 1], ""))
    else
      match SplitHost(s[..|s| - 1])
      case None => None
      case Some(hp) => Some((hp.0, hp.1 + [s[|s| - 1]]))
  }

  predicate IsDigit(c: char) {
    '0' <= c <= '9'
  }

  predicate AllDigits(s: string) {
    forall i :: 0 <= i < |s| ==> IsDigit(s[i])
  }

  function Value(s: string): nat
    requires AllDigits(s)
  {
    if s == "" then 0
    else
      assert IsDigit(s[|s| - 1]);
      10 * Value(s[..|s| - 1]) + (s[|s| - 1] as int - '0' as int)
  }

  /** `parse::<u16>`: decimal digits, with an optional plus sign in front. */
  function ParsePort(s: string): Option<PortNumber> {
    var digits := if s != "" && s[0] == '+' then s[1..] else s;
    if digits != "" && AllDigits(digits) && Value(digits) < 0x1_0000
    then Some(Value(digits)) else None
  }

  function Show(n: nat): (r: string)
    ensures r != "" && AllDigits(r)
    ensures Value(r) == n
  {
    if n < 10 then [('0' as int + n) as char] else Show(n / 10) + [('0' as int + n % 10) as char]
  }

  // ---- The two checks ----

  datatype Mapped = Mapped(bindAddr: string, host: string, port: PortNumber)

  /** The parts that name the bind address, if any, and the advertised address. */
  function Parts(mapping: string): Option<(Option<string>, string)> {
    var parts := Split(mapping);
    if |parts| == 1 then Some((None, Trim(parts[0])))
    else if |parts| == 2 then Some((Some(Trim(parts[0])), Trim(parts[1])))
    else if |parts| == 3 then Some((Some(Trim(parts[1])), Trim(parts[2])))
    else None
  }

  function BindAddr(bind: Option<string>, port: PortNumber): Option<string> {
    match bind
    case None => Some(":" + Show(port))
    case Some(b) =>
      match SplitHost(b)
      case None => None
      case Some(hp) =>
        match ParsePort(hp.1)
        case None => None
        case Some(p) => Some(hp.0 + ":" + Show(p))
  }

  function ParseEntry(mapping: string, fallback: string): Option<Mapped> {
    match Parts(mapping)
    case None => None
    case Some(parts) =>
      match SplitHost(parts.1)
      case None => None
      case Some(hp) =>
        match ParsePort(hp.1)
        case None => None
        case Some(port) =>
          match BindAddr(parts.0, port)
          case None => None
          case Some(b) => Some(Mapped(b, if hp.0 == "" then fallback else hp.0, port))
  }

  predicate Validates(mapping: string, advertiseHost: Option<string>) {
    var parts := Split(mapping);
    && 1 <= |parts| <= 3
    && (var hp := SplitHost(Trim(parts[|parts| - 1]));
        (hp.None? || hp.value.0 == "") ==> Trim(if advertiseHost.Some? then advertiseHost.value else "") != "")
  }

  // ---- What both accept has a host ----

  /** The fallback stands in for a missing host and changes nothing else. */
  lemma ReadsUnder(mapping: string, fallback: string)
    ensures ParseEntry(mapping, fallback).Some? <==> ParseEntry(mapping, "").Some?
    ensures ParseEntry(mapping, "").Some? ==>
              var x := ParseEntry(mapping, "").value;
              ParseEntry(mapping, fallback) == Some(x.(host := if x.host == "" then fallback else x.host))
  {
    hide Parts, SplitHost, ParsePort, BindAddr;
  }

  /** An entry that both accept always has an advertised host. */
  lemma AcceptedHasHost(mapping: string, advertiseHost: Option<string>)
    requires Validates(mapping, advertiseHost)
    requires ParseEntry(mapping, if advertiseHost.Some? then advertiseHost.value else "").Some?
    ensures ParseEntry(mapping, if advertiseHost.Some? then advertiseHost.value else "").value.host != ""
  {
    ReadsUnder(mapping, if advertiseHost.Some? then advertiseHost.value else "");
    ValidatesExactly(mapping, advertiseHost);
    hide Validates, ParseEntry, IsSpace;
  }

  /** Of the entries that parse, validation turns away exactly those that name no host of their own while
      the fallback is blank. */
  lemma ValidatesExactly(mapping: string, advertiseHost: Option<string>)
    requires ParseEntry(mapping, "").Some?
    ensures Validates(mapping, advertiseHost)
       <==> ParseEntry(mapping, "").value.host != ""
            || (advertiseHost.Some? && exists i :: 0 <= i < |advertiseHost.value| && !IsSpace(advertiseHost.value[i]))
  {
    var parts := Split(mapping);
    assert Parts(mapping).value.1 == Trim(parts[|parts| - 1]);
    BlankExactly(if advertiseHost.Some? then advertiseHost.value else "");
    hide Split, SplitHost, Trim, ParsePort, BindAddr;
  }

  /** ...and of all entries, those without one to three parts as well. */
  lemma TooManyParts(mapping: string, advertiseHost: Option<string>)
    ensures |Split(mapping)| > 3 ==> !Validates(mapping, advertiseHost) && ParseEntry(mapping, "").None?
  {
  }

  lemma BlankExactly(s: string)
    ensures Trim(s) != "" <==> exists i :: 0 <= i < |s| && !IsSpace(s[i])
  {
    TrimSpelled(s);
    var a, t := |s| - |TrimStart(s)|, Trim(s);
    hide Trim, IsSpace, TrimStart;
    if t != "" {
      assert s[a] == t[0];
    }
    forall i | 0 <= i < |s| && !IsSpace(s[i]) ensures t != "" {
    }
  }

  /** Trimming takes white space, and all of it, off both ends and nothing from between. */
  lemma TrimSpelled(s: string)
    ensures var a, t := |s| - |TrimStart(s)|, Trim(s);
            && 0 <= a <= a + |t| <= |s| && t == s[a..a + |t|] && Trimmed(t)
            && (forall i :: 0 <= i < a || a + |t| <= i < |s| ==> IsSpace(s[i]))
  {
    TrimStartKeeps(s);
    TrimEndKeeps(TrimStart(s));
    StartTaken(s);
    EndTaken(TrimStart(s));
    TrimKeeps(s);
    var a, u, t := |s| - |TrimStart(s)|, TrimStart(s), Trim(s);
    hide TrimStart, TrimEnd, IsSpace;
    forall i | a + |t| <= i < |s| ensures IsSpace(s[i]) {
      assert s[i] == u[i - a];
    }
  }

  lemma {:induction false} StartTaken(s: string)
    ensures |TrimStart(s)| <= |s| && forall i :: 0 <= i < |s| - |TrimStart(s)| ==> IsSpace(s[i])
    decreases |s|
  {
    if s != "" && IsSpace(s[0]) {
      StartTaken(s[1..]);
      forall i | 0 <= i < |s| - |TrimStart(s)| ensures IsSpace(s[i]) {
        if i > 0 {
          assert s[i] == s[1..][i - 1];
        }
      }
    }
  }

  lemma {:induction false} EndTaken(s: string)
    ensures |TrimEnd(s)| <= |s| && forall i :: |TrimEnd(s)| <= i < |s| ==> IsSpace(s[i])
    decreases |s|
  {
    if s != "" && IsSpace(s[|s| - 1]) {
      EndTaken(s[..|s| - 1]);
      forall i | |TrimEnd(s)| <= i < |s| ensures IsSpace(s[i]) {
        if i < |s| - 1 {
          assert s[i] == s[..|s| - 1][i];
        }
      }
    }
  }

  // ---- Printing and parsing again ----

  function Printed(x: Mapped): string {
    x.bindAddr + "," + x.host + ":" + Show(x.port)
  }

  ghost predicate CommaFree(s: string) {
    ',' !in s
  }

  ghost predicate Trimmed(s: string) {
    s != "" ==> !IsSpace(s[0]) && !IsSpace(s[|s| - 1])
  }

  lemma {:induction false} TrimStartKeeps(s: string)
    ensures |TrimStart(s)| <= |s| && TrimStart(s) == s[|s| - |TrimStart(s)|..]
    ensures TrimStart(s) != "" ==> !IsSpace(TrimStart(s)[0])
    decreases |s|
  {
    if s != "" && IsSpace(s[0]) {
      TrimStartKeeps(s[1..]);
    }
  }

  lemma {:induction false} TrimEndKeeps(s: string)
    ensures |TrimEnd(s)| <= |s| && TrimEnd(s) == s[..|TrimEnd(s)|]
    ensures TrimEnd(s) != "" ==> !IsSpace(TrimEnd(s)[|TrimEnd(s)| - 1])
    decreases |s|
  {
    if s != "" && IsSpace(s[|s| - 1]) {
      TrimEndKeeps(s[..|s| - 1]);
    }
  }

  lemma TrimKeeps(s: string)
    ensures Trimmed(Trim(s)) && (CommaFree(s) ==> CommaFree(Trim(s)))
    ensures Trimmed(s) ==> Trim(s) == s
  {
    TrimStartKeeps(s);
    TrimEndKeeps(TrimStart(s));
  }

  lemma {:induction false} SplitNone(s: string)
    requires CommaFree(s)
    ensures Split(s) == [s]
    decreases |s|
  {
    if s != "" {
      SplitNone(s[1..]);
      assert [s[0]] + s[1..] == s;
    }
  }

  /** Splitting at the first comma. */
  lemma {:induction false} SplitFirst(a: string, b: string)
    requires CommaFree(a)
    ensures Split(a + "," + b) == [a] + Split(b)
    decreases |a|
  {
    var s := a + "," + b;
    if a == "" {
      assert s[1..] == b;
    } else {
      assert s[1..] == a[1..] + "," + b;
      SplitFirst(a[1..], b);
      assert [a[0]] + a[1..] == a;
    }
  }

  lemma {:induction false} SplitHostSpells(s: string)
    ensures match SplitHost(s)
            case None => ':' !in s
            case Some(hp) => s == hp.0 + ":" + hp.1 && ':' !in hp.1
    decreases |s|
  {
    if s != "" && s[|s| - 1] != ':' {
      SplitHostSpells(s[..|s| - 1]);
      assert s == s[..|s| - 1] + [s[|s| - 1]];
    }
  }

  lemma {:induction false} SplitHostAt(h: string, p: string)
    requires ':' !in p
    ensures SplitHost(h + ":" + p) == Some((h, p))
    decreases |p|
  {
    var s := h + ":" + p;
    if p == "" {
      assert s[..|s| - 1] == h;
    } else {
      var n := |p| - 1;
      assert s[|s| - 1] == p[n];
      assert s[..|s| - 1] == h + ":" + p[..n];
      SplitHostAt(h, p[..n]);
      assert p[..n] + [p[n]] == p;
    }
  }

  lemma ShownPort(p: PortNumber)
    ensures ParsePort(Show(p)) == Some(p)
    ensures ',' !in Show(p) && ':' !in Show(p)
    ensures !IsSpace(Show(p)[0]) && !IsSpace(Show(p)[|Show(p)| - 1])
  {
    var s := Show(p);
    assert AllDigits(s);
  }

  /** "host:port", for a host that is not led by white space, reads back as it is. */
  lemma AddressReads(h: string, p: PortNumber)
    ensures SplitHost(h + ":" + Show(p)) == Some((h, Show(p))) && ParsePort(Show(p)) == Some(p)
    ensures (h != "" ==> !IsSpace(h[0])) ==> Trim(h + ":" + Show(p)) == h + ":" + Show(p)
    ensures CommaFree(h) ==> CommaFree(h + ":" + Show(p))
  {
    ShownPort(p);
    hide Show, IsSpace, ParsePort;
    SplitHostAt(h, Show(p));
    hide SplitHost;
    TrimKeeps(h + ":" + Show(p));
    hide Trim;
    Ends(h, Show(p));
  }

  lemma Ends(h: string, q: string)
    requires q != "" && !IsSpace(q[|q| - 1]) && ',' !in q
    ensures (h != "" ==> !IsSpace(h[0])) ==> Trimmed(h + ":" + q)
    ensures CommaFree(h) ==> CommaFree(h + ":" + q)
  {
    var s := h + ":" + q;
    assert s[|s| - 1] == q[|q| - 1] && s[0] == if h == "" then ':' else h[0];
  }

  /** What an accepted entry's bind address looks like. */
  lemma BindAddrShape(mapping: string, fallback: string) returns (h: string, p: PortNumber)
    requires ParseEntry(mapping, fallback).Some?
    ensures ParseEntry(mapping, fallback).value.bindAddr == h + ":" + Show(p)
    ensures CommaFree(h) && (h != "" ==> !IsSpace(h[0]))
  {
    var x := ParseEntry(mapping, fallback).value;
    var parts := Parts(mapping).value;
    match parts.0 {
      case None =>
        h, p := "", x.port;
        assert ":" + Show(p) == "" + ":" + Show(p);
      case Some(b) =>
        var hp := SplitHost(b).value;
        h, p := hp.0, ParsePort(hp.1).value;
        SplitHostSpells(b);
        var all := Split(mapping);
        TrimKeeps(all[if |all| == 2 then 0 else 1]);
        assert h != "" ==> h[0] == b[0];
        assert forall i :: 0 <= i < |h| ==> h[i] == b[i];
    }
  }

  /** The printed form splits into its two addresses when the host is free of commas. */
  lemma PrintedParts(bindHost: string, bindPort: PortNumber, host: string, port: PortNumber)
    requires CommaFree(bindHost) && (bindHost != "" ==> !IsSpace(bindHost[0])) && CommaFree(host)
    ensures Parts(bindHost + ":" + Show(bindPort) + "," + host + ":" + Show(port))
         == Some((Some(bindHost + ":" + Show(bindPort)), Trim(host + ":" + Show(port))))
  {
    var a, b := bindHost + ":" + Show(bindPort), host + ":" + Show(port);
    AddressReads(bindHost, bindPort);
    AddressReads(host, port);
    hide Show, SplitHost, ParsePort;
    Regroup(a, host, Show(port));
    SplitFirst(a, b);
    SplitNone(b);
    hide Split, Trim;
    TwoParts(a + "," + b, a, b);
  }

  lemma Regroup(a: string, h: string, p: string)
    ensures a + "," + h + ":" + p == a + "," + (h + ":" + p)
  {
  }

  lemma TwoParts(s: string, a: string, b: string)
    requires Split(s) == [a] + [b]
    ensures Parts(s) == Some((Some(Trim(a)), Trim(b)))
  {
    hide Split, Trim;
  }

  /** An accepted entry, printed as "bind,host:port", parses to the same triple again. */
  lemma PrintedParsesAgain(mapping: string, fallback: string, other: string)
    requires ParseEntry(mapping, fallback).Some?
    requires var x := ParseEntry(mapping, fallback).value;
             CommaFree(x.host) && if x.host == "" then other == "" else !IsSpace(x.host[0])
    ensures ParseEntry(Printed(ParseEntry(mapping, fallback).value), other) == ParseEntry(mapping, fallback)
  {
    var x := ParseEntry(mapping, fallback).value;
    var h, p := BindAddrShape(mapping, fallback);
    hide ParseEntry;
    PrintedParts(h, p, x.host, x.port);
    AddressReads(x.host, x.port);
    AddressReads(h, p);
    hide Parts, SplitHost, ParsePort, Show, Trim;
    assert Printed(x) == h + ":" + Show(p) + "," + x.host + ":" + Show(x.port);
    assert ParseEntry(Printed(x), other) == Some(x) by {
      ReadBack(Printed(x), other, x, h, p);
    }
  }

  lemma ReadBack(printed: string, other: string, x: Mapped, h: string, p: PortNumber)
    requires Parts(printed) == Some((Some(h + ":" + Show(p)), x.host + ":" + Show(x.port)))
    requires SplitHost(x.host + ":" + Show(x.port)) == Some((x.host, Show(x.port))) && ParsePort(Show(x.port)) == Some(x.port)
    requires SplitHost(h + ":" + Show(p)) == Some((h, Show(p))) && ParsePort(Show(p)) == Some(p)
    requires x.bindAddr == h + ":" + Show(p) && (x.host == "" ==> other == "")
    ensures ParseEntry(printed, other) == Some(x)
  {
    hide Parts, SplitHost, ParsePort, Show, Trim;
  }

  /** A host read from an entry itself, not from the fallback, is trimmed and free of commas. */
  lemma OwnHost(mapping: string)
    requires ParseEntry(mapping, "").Some?
    ensures var h := ParseEntry(mapping, "").value.host; CommaFree(h) && (h != "" ==> !IsSpace(h[0]))
  {
    var parts := Parts(mapping).value;
    var all := Split(mapping);
    TrimKeeps(all[|all| - 1]);
    SplitHostSpells(parts.1);
    var h := SplitHost(parts.1).value.0;
    assert forall i :: 0 <= i < |h| ==> h[i] == parts.1[i];
  }

  /** An accepted entry survives printing, whatever fallback it is read back under, exactly if its
      host is there, has no comma and is not led by white space: only a fallback can break that. */
  lemma SurvivesPrintingExactly(mapping: string, fallback: string)
    requires ParseEntry(mapping, fallback).Some?
    ensures var x := ParseEntry(mapping, fallback).value;
            (forall other :: ParseEntry(Printed(x), other) == Some(x))
            <==> x.host != "" && CommaFree(x.host) && !IsSpace(x.host[0])
  {
    var x := ParseEntry(mapping, fallback).value;
    if x.host != "" && CommaFree(x.host) && !IsSpace(x.host[0]) {
      forall other ensures ParseEntry(Printed(x), other) == Some(x) {
        PrintedParsesAgain(mapping, fallback, other);
      }
    }
    if forall other :: ParseEntry(Printed(x), other) == Some(x) {
      assert ParseEntry(Printed(x), "") == Some(x);
      OwnHost(Printed(x));
      assert ParseEntry(Printed(x), "x") == Some(x);
      if x.host == "" {
        HostUnder(Printed(x), "x");
      }
    }
  }

  lemma HostUnder(mapping: string, fallback: string)
    requires ParseEntry(mapping, fallback).Some? && fallback != ""
    ensures ParseEntry(mapping, fallback).value.host != ""
  {
  }

  /** A host of the entry's own never breaks it. */
  lemma OwnHostSurvives(mapping: string, fallback: string, other: string)
    requires ParseEntry(mapping, "").Some? && ParseEntry(mapping, "").value.host != ""
    ensures ParseEntry(mapping, fallback) == ParseEntry(mapping, "")
    ensures ParseEntry(Printed(ParseEntry(mapping, "").value), other) == ParseEntry(mapping, "")
  {
    OwnHost(mapping);
    PrintedParsesAgain(mapping, "", other);
  }

  /** Which part is which: with two addresses the first is bound and the second advertised; a third in front
      is ignored; with one address its port is bound on every interface. */
  lemma PartsSpelled(orig: string, bindHost: string, bindPort: PortNumber, host: string, port: PortNumber, fallback: string)
    requires CommaFree(orig) && CommaFree(bindHost) && CommaFree(host) && host != ""
    requires (bindHost != "" ==> !IsSpace(bindHost[0])) && !IsSpace(host[0])
    ensures var bind, adv := bindHost + ":" + Show(bindPort), host + ":" + Show(port);
            && ParseEntry(adv, fallback) == Some(Mapped(":" + Show(port), host, port))
            && ParseEntry(bind + "," + adv, fallback) == Some(Mapped(bind, host, port))
            && ParseEntry(orig + "," + (bind + "," + adv), fallback) == Some(Mapped(bind, host, port))
  {
    var bind, adv := bindHost + ":" + Show(bindPort), host + ":" + Show(port);
    AddressReads(bindHost, bindPort);
    AddressReads(host, port);
    hide Show, SplitHost, ParsePort, Trim, ParseEntry;
    SplitNone(adv);
    SplitFirst(bind, adv);
    SplitFirst(orig, bind + "," + adv);
    hide Split;
    PartCounts(adv, bind + "," + adv, orig + "," + (bind + "," + adv), orig, bind, adv);
    hide Parts;
    ReadAlone(adv, fallback, host, port);
    ReadBack(bind + "," + adv, fallback, Mapped(bind, host, port), bindHost, bindPort);
    ReadBack(orig + "," + (bind + "," + adv), fallback, Mapped(bind, host, port), bindHost, bindPort);
  }

  lemma PartCounts(one: string, two: string, three: string, a: string, b: string, c: string)
    requires Split(one) == [c] && Split(two) == [b] + [c] && Split(three) == [a] + ([b] + [c])
    ensures Parts(one) == Some((None, Trim(c)))
    ensures Parts(two) == Parts(three) == Some((Some(Trim(b)), Trim(c)))
  {
    hide Split, Trim;
  }

  lemma ReadAlone(s: string, fallback: string, host: string, port: PortNumber)
    requires Parts(s) == Some((None, host + ":" + Show(port))) && host != ""
    requires SplitHost(host + ":" + Show(port)) == Some((host, Show(port))) && ParsePort(Show(port)) == Some(port)
    ensures ParseEntry(s, fallback) == Some(Mapped(":" + Show(port), host, port))
  {
    hide Parts, SplitHost, ParsePort, Show, Trim;
  }

  /** A decimal number is read digit by digit, the most significant first. */
  lemma DecimalSpelled(s: string, c: char)
    requires AllDigits(s) && IsDigit(c)
    ensures Value("") == 0 && Value(s + [c]) == 10 * Value(s) + (c as int - '0' as int)
  {
    assert (s + [c])[..|s|] == s;
  }

  /** A port is a decimal number below 2^16, with a plus sign in front or without, and nothing else. */
  lemma PortsSpelled(n: nat, s: string)
    ensures ParsePort(Show(n)) == ParsePort("+" + Show(n)) == if n < 0x1_0000 then Some(n) else None
    ensures ParsePort("") == ParsePort("+") == None
    ensures ParsePort(s).Some? ==>
              var digits := if s[0] == '+' then s[1..] else s;
              digits != "" && forall i :: 0 <= i < |digits| ==> '0' <= digits[i] <= '9'
  {
    assert ("+" + Show(n))[1..] == Show(n);
    assert IsDigit(Show(n)[0]);
    hide Show, Value;
    if ParsePort(s).Some? {
      OnlyDigits(s);
    }
  }

  lemma OnlyDigits(s: string)
    requires ParsePort(s).Some?
    ensures s != ""
    ensures var digits := if s[0] == '+' then s[1..] else s;
            digits != "" && forall i :: 0 <= i < |digits| ==> '0' <= digits[i] <= '9'
  {
    var digits := if s != "" && s[0] == '+' then s[1..] else s;
    assert AllDigits(digits);
    assert forall i :: 0 <= i < |digits| ==> IsDigit(digits[i]);
  }
}
