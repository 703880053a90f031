/** IP addresses: what a VM reports, what is left after the search filters, and
    which one the address lookup may return. Parsing and rendering are those of
    Go's net package. */
module VMAddresses {
  import opened Prelude
  import Decimal

  // Sixteen bytes, two at a time. An IPv4 address is one of ::ffff:0:0/96.
  type Groups = g: seq<nat> | |g| == 8 witness [0, 0, 0, 0, 0, 0, 0, 0]

  // What does not parse is no address, and is kept as such.
  datatype IP = NoIP | IP(groups: Groups)

  // The addresses a VM reports, by network interface, as text.
  type Report = map<string, seq<string>>

  function Zeros(n: nat): seq<nat> {
    seq(n, _ => 0)
  }

  const IPV4_PREFIX := [0, 0, 0, 0, 0, 0xffff]

  predicate IsIPv4(g: Groups) {
    g[..6] == IPV4_PREFIX
  }

  /* ---- Parsing ---- */

  function Split(s: string): (parts: seq<string>)
    ensures parts != []
  {
    if s == "" then [""]
    else
      var rest := Split(s[1..]);
      if s[0] == '.' then [""] + rest else [[s[0]] + rest[0]] + rest[1..]
  }

  // Digits without a leading zero that make at most 255.
  predicate Octet(s: string) {
    s != "" && Decimal.Digits(s) && (|s| > 1 ==> s[0] != '0') && Decimal.Read(s) <= 255
  }

  function ParseIPv4(s: string): Option<Groups> {
    var parts := Split(s);
    if |parts| == 4 && Octet(parts[0]) && Octet(parts[1]) && Octet(parts[2]) && Octet(parts[3]) then
      Some(IPV4_PREFIX + [TwoBytes(parts[0], parts[1]), TwoBytes(parts[2], parts[3])])
    else
      None
  }

  function TwoBytes(a: string, b: string): nat
    requires Octet(a) && Octet(b)
  {
    Decimal.Read(a) * 256 + Decimal.Read(b)
  }

  function HexDigit(c: char): Option<nat> {
    if '0' <= c <= '9' then Some((c - '0') as nat)
    else if 'a' <= c <= 'f' then Some((c - 'a') as nat + 10)
    else if 'A' <= c <= 'F' then Some((c - 'A') as nat + 10)
    else None
  }

  // The number that the leading hexadecimal digits make, and how many there are.
  function LeadingHex(s: string, n: nat): (r: (nat, nat))
    ensures r.1 <= |s|
  {
    if s == "" || HexDigit(s[0]).None? then (n, 0)
    else
      var rest := LeadingHex(s[1..], n * 16 + HexDigit(s[0]).value);
      (rest.0, rest.1 + 1)
  }

  // Groups with the position of the ellipsis among them, if there is one.
  datatype Partial = Partial(groups: seq<nat>, ellipsis: Option<nat>) {
    predicate Fits() {
      |groups| <= 8 && (ellipsis.Some? ==> ellipsis.value <= |groups|)
    }
  }

  // An ellipsis stands for at least one group.
  function Expand(p: Partial): Option<Groups>
    requires p.Fits()
  {
    if |p.groups| == 8 then
      if p.ellipsis.Some? then None else Some(p.groups)
    else if p.ellipsis.None? then None
    else
      var e := p.ellipsis.value;
      Some(p.groups[..e] + Zeros(8 - |p.groups|) + p.groups[e..])
  }

  // Reading on from the groups that were read; the last two may be a dotted tail.
  function ParseGroups(s: string, p: Partial): (r: Option<Partial>)
    requires p.Fits()
    ensures r.Some? ==> r.value.Fits()
    decreases |s|
  {
    if |p.groups| == 8 then None
    else
      var (n, c) := LeadingHex(s, 0);
      var rest := s[c..];
      if c == 0 || n > 0xffff then None
      else if rest != "" && rest[0] == '.' then ParseTail(s, p)
      else
        var q := p.(groups := p.groups + [n]);
        if rest == "" then Some(q)
        else if rest[0] != ':' || |rest| == 1 then None
        else if rest[1] != ':' then ParseGroups(rest[1..], q)
        else if q.ellipsis.Some? then None
        else if |rest| == 2 then Some(q.(ellipsis := Some(|q.groups|)))
        else ParseGroups(rest[2..], q.(ellipsis := Some(|q.groups|)))
  }

  function ParseTail(s: string, p: Partial): (r: Option<Partial>)
    requires p.Fits()
    ensures r.Some? ==> r.value.Fits()
  {
    var tail := ParseIPv4(s);
    if (p.ellipsis.None? && |p.groups| != 6) || |p.groups| > 6 || tail.None? then None
    else Some(p.(groups := p.groups + tail.value[6..]))
  }

  function ParseIPv6(s: string): Option<Groups> {
    if s == "::" then Some(Zeros(8))
    else
      var parsed := if "::" <= s then ParseGroups(s[2..], Partial([], Some(0))) else ParseGroups(s, Partial([], None));
      if parsed.None? then None else Expand(parsed.value)
  }

  // Whichever of a dot and a colon comes first decides.
  function ParseIP(s: string): IP {
    var g := if DotFirst(s) then ParseIPv4(s) else if ':' in s then ParseIPv6(s) else None;
    if g.Some? then IP(g.value) else NoIP
  }

  predicate DotFirst(s: string) {
    s != "" && s[0] != ':' && (s[0] == '.' || DotFirst(s[1..]))
  }

  /* ---- Rendering ---- */

  function HexText(n: nat): (s: string)
    ensures s != ""
  {
    var digit := "0123456789abcdef"[n % 16];
    if n < 16 then [digit] else HexText(n / 16) + [digit]
  }

  function Joined(g: seq<nat>): string {
    if g == [] then ""
    else if |g| == 1 then HexText(g[0])
    else HexText(g[0]) + ":" + Joined(g[1..])
  }

  // How many groups from i on are zero.
  function ZerosFrom(g: seq<nat>, i: nat): (n: nat)
    requires i <= |g|
    ensures i + n <= |g|
    decreases |g| - i
  {
    if i < |g| && g[i] == 0 then 1 + ZerosFrom(g, i + 1) else 0
  }

  // Where the first of the longest runs of zeros before i starts.
  function LongestRun(g: seq<nat>, i: nat): (e: nat)
    requires i <= |g|
    ensures e <= i
  {
    if i == 0 then 0
    else
      var e := LongestRun(g, i - 1);
      if ZerosFrom(g, i - 1) > ZerosFrom(g, e) then i - 1 else e
  }

  function Dotted(g: Groups): string {
    Decimal.Render(g[6] / 256) + "." + Decimal.Render(g[6] % 256) + "." +
    Decimal.Render(g[7] / 256) + "." + Decimal.Render(g[7] % 256)
  }

  // A run of at least two zeros is shortened, the first of the longest ones.
  function Text(ip: IP): string {
    if ip.NoIP? then "<nil>"
    else if IsIPv4(ip.groups) then Dotted(ip.groups)
    else
      var g := ip.groups;
      var e := LongestRun(g, 7);
      var n := ZerosFrom(g, e);
      if n < 2 then Joined(g) else Joined(g[..e]) + "::" + Joined(g[e + n..])
  }

  lemma TextIsNotEmpty(ip: IP)
    ensures Text(ip) != ""
  {
  }

  /* ---- The cluster's own addresses ---- */

  // A text followed by /32: one IPv4 address, or all the IPv6 addresses that begin
  // with the same two groups.
  datatype Range = Only(groups: Groups) | Prefix(first: nat, second: nat) {
    predicate Contains(ip: IP) {
      && ip.IP?
      && match this
         case Only(g) => ip.groups == g
         case Prefix(a, b) => !IsIPv4(ip.groups) && ip.groups[0] == a && ip.groups[1] == b
    }
  }

  function ParseRange(s: string): Option<Range> {
    var v4, v6 := ParseIPv4(s), ParseIPv6(s);
    if v4.Some? then Some(Only(v4.value))
    else if v6.Some? then Some(Prefix(v6.value[0], v6.value[1]))
    else None
  }

  ghost predicate AllParse(addresses: set<string>) {
    forall a :: a in addresses ==> ParseRange(a).Some?
  }

  function Ranges(addresses: set<string>): set<Range> {
    set a | a in addresses && ParseRange(a).Some? :: ParseRange(a).value
  }

  predicate Excluded(ip: IP, ranges: set<Range>) {
    exists r :: r in ranges && r.Contains(ip)
  }

  /* ---- Searching ---- */

  // The interfaces an address is looked for on.
  predicate IncludedInterface(name: string) {
    "eth" <= name || "en" <= name || "br-ex" <= name
  }

  // A name is looked at exactly if it starts like one of these.
  lemma InterfacesLookedAt()
    ensures forall n :: n in {"eth", "eth0", "ens3", "enp1s0", "en", "br-ex", "br-ex0"} ==> IncludedInterface(n)
    ensures forall n :: n in {"", "e", "lo", "et0", "br-int", "br", "weth0"} ==> !IncludedInterface(n)
  {
    assert "en"[0] == "eth"[0] == 'e' && "en"[1] == 'n' && "eth"[1] == 't' && "eth"[2] == 'h';
    assert "br-ex"[0] == 'b' && "br-ex"[3] == 'e' && "et0"[0] == 'e' && "et0"[1] == 't' && "et0"[2] == '0';
    assert "lo"[0] == 'l' && "weth0"[0] == 'w' && "br-int"[0] == 'b' && "br-int"[3] == 'i';
  }

  function Kept(ips: seq<string>, excluded: set<Range>): seq<IP> {
    if ips == [] then []
    else
      var ip := ParseIP(ips[0]);
      (if Excluded(ip, excluded) then [] else [ip]) + Kept(ips[1..], excluded)
  }

  // What is left of a report: the included interfaces that have an address
  // outside the excluded ranges.
  function Usable(report: Report, excluded: set<Range>): map<string, seq<IP>> {
    map n | n in report && IncludedInterface(n) && Kept(report[n], excluded) != [] :: Kept(report[n], excluded)
  }

  // The lookup takes the first address of any interface that has one, and an
  // empty string if none has.
  ghost predicate Chosen(ip: string, nics: map<string, seq<IP>>) {
    || (exists n :: n in nics && nics[n] != [] && ip == Text(nics[n][0]))
    || (ip == "" && forall n :: n in nics ==> nics[n] == [])
  }

  lemma {:induction false} KeptExactly(ips: seq<string>, excluded: set<Range>, ip: IP)
    ensures ip in Kept(ips, excluded) <==> !Excluded(ip, excluded) && exists a :: a in ips && ip == ParseIP(a)
  {
    hide ParseIP, Excluded;
    if ips != [] { KeptExactly(ips[1..], excluded, ip); }
  }

  // A VM that reports nothing usable: every address of every included interface
  // is one of the cluster's own.
  ghost predicate Addressless(report: Report, excluded: set<Range>) {
    forall n, a :: n in report && IncludedInterface(n) && a in report[n] ==> Excluded(ParseIP(a), excluded)
  }

  // What the lookup may find: what an included interface reports, and none of the
  // cluster's own.
  ghost predicate Findable(ip: string, report: Report, excluded: set<Range>) {
    exists n, a :: n in report && IncludedInterface(n) && a in report[n] &&
                   !Excluded(ParseIP(a), excluded) && ip == Text(ParseIP(a))
  }

  // The address that is found is empty exactly for such a VM; any other is one
  // the VM reports on an included interface, and none of the cluster's.
  lemma EmptyExactly(ip: string, report: Report, excluded: set<Range>)
    requires Chosen(ip, Usable(report, excluded))
    ensures ip == "" <==> Addressless(report, excluded)
    ensures ip != "" <==> Findable(ip, report, excluded)
  {
    hide ParseIP, Excluded, Text, IncludedInterface;
    var nics := Usable(report, excluded);
    if n :| n in nics && nics[n] != [] && ip == Text(nics[n][0]) {
      KeptExactly(report[n], excluded, nics[n][0]);
      TextIsNotEmpty(nics[n][0]);
    } else {
      forall n, a | n in report && IncludedInterface(n) && a in report[n] ensures Excluded(ParseIP(a), excluded) {
        KeptExactly(report[n], excluded, ParseIP(a));
        assert n !in nics;
      }
    }
  }

  /* ---- What is rendered parses back ---- */

  lemma {:induction false} SplitAtDot(part: string, rest: string)
    requires '.' !in part
    ensures Split(part + "." + rest) == [part] + Split(rest)
  {
    var s := part + "." + rest;
    if part == "" {
      assert s[1..] == rest;
    } else {
      SplitAtDot(part[1..], rest);
      assert s[1..] == part[1..] + "." + rest && [s[0]] + part[1..] == part;
    }
  }

  lemma {:induction false} SplitLast(part: string)
    requires '.' !in part
    ensures Split(part) == [part]
  {
    if part != "" {
      SplitLast(part[1..]);
      assert [part[0]] + part[1..] == part;
    }
  }

  lemma SplitInFour(a: string, b: string, c: string, d: string)
    requires '.' !in a && '.' !in b && '.' !in c && '.' !in d
    ensures Split(a + "." + b + "." + c + "." + d) == [a, b, c, d]
  {
    hide Split;
    SplitLast(d);
    SplitAtDot(c, d);
    SplitAtDot(b, c + "." + d);
    SplitAtDot(a, b + "." + c + "." + d);
    assert b + "." + (c + "." + d) == b + "." + c + "." + d;
    assert a + "." + (b + "." + c + "." + d) == a + "." + b + "." + c + "." + d;
  }

  // The first of the two is at k.
  lemma {:induction false} FirstAt(s: string, k: nat)
    requires k < |s| && s[k] in {'.', ':'} && forall i :: 0 <= i < k ==> s[i] !in {'.', ':'}
    ensures DotFirst(s) <==> s[k] == '.'
  {
    if k > 0 { FirstAt(s[1..], k - 1); }
  }

  lemma {:induction false} LeadingConcat(a: string, b: string, n: nat)
    requires forall i :: 0 <= i < |a| ==> HexDigit(a[i]).Some?
    ensures LeadingHex(a, n).1 == |a|
    ensures var m := LeadingHex(a, n).0;
            LeadingHex(a + b, n) == (LeadingHex(b, m).0, |a| + LeadingHex(b, m).1)
    decreases |a|
  {
    if a == "" {
      assert a + b == b;
    } else {
      assert (a + b)[1..] == a[1..] + b;
      LeadingConcat(a[1..], b, n * 16 + HexDigit(a[0]).value);
    }
  }

  lemma {:induction false} HexReads(n: nat)
    ensures forall i :: 0 <= i < |HexText(n)| ==> HexDigit(HexText(n)[i]).Some?
    ensures LeadingHex(HexText(n), 0) == (n, |HexText(n)|)
  {
    var digit := "0123456789abcdef"[n % 16];
    assert HexDigit(digit) == Some(n % 16);
    assert LeadingHex([digit], n / 16) == (n / 16 * 16 + n % 16, 1);
    if n >= 16 {
      HexReads(n / 16);
      LeadingConcat(HexText(n / 16), [digit], 0);
    }
  }

  // One group and what follows it.
  lemma GroupReads(n: nat, rest: string)
    requires rest == "" || HexDigit(rest[0]).None?
    ensures LeadingHex(HexText(n) + rest, 0) == (n, |HexText(n)|)
    ensures (HexText(n) + rest)[|HexText(n)|..] == rest
    ensures HexText(n)[0] !in {'.', ':'}
  {
    HexReads(n);
    LeadingConcat(HexText(n), rest, 0);
  }

  // What reading on makes of some groups, followed by nothing or by an ellipsis.
  function ReadOn(h: seq<nat>, tail: string, p: Partial): (r: Option<Partial>)
    requires p.Fits() && |p.groups| + |h| <= 8
  {
    var q := p.(groups := p.groups + h);
    var e := q.(ellipsis := Some(|q.groups|));
    if tail == "" then Some(q) else if |tail| <= 2 then Some(e) else ParseGroups(tail[2..], e)
  }

  lemma GroupStep(n: nat, rest: string, p: Partial)
    requires p.Fits() && |p.groups| < 8 && n <= 0xffff && (rest == "" || (rest[0] == ':' && |rest| > 1))
    ensures var q := p.(groups := p.groups + [n]);
            var e := q.(ellipsis := Some(|q.groups|));
            ParseGroups(HexText(n) + rest, p) ==
            if rest == "" then Some(q)
            else if rest[1] != ':' then ParseGroups(rest[1..], q)
            else if q.ellipsis.Some? then None
            else if |rest| == 2 then Some(e)
            else ParseGroups(rest[2..], e)
  {
    hide LeadingHex, HexText, HexDigit;
    NotHex();
    GroupReads(n, rest);
  }

  lemma {:induction false} JoinedReads(h: seq<nat>, tail: string, p: Partial)
    requires p.Fits() && h != [] && |p.groups| + |h| <= 8 && forall i :: 0 <= i < |h| ==> h[i] <= 0xffff
    requires tail == "" || ("::" <= tail && p.ellipsis.None?)
    ensures ParseGroups(Joined(h) + tail, p) == ReadOn(h, tail, p)
    ensures Joined(h) != "" && Joined(h)[0] !in {'.', ':'}
    decreases |h|
  {
    hide LeadingHex, HexText, HexDigit, ParseGroups;
    GroupReads(h[0], "");
    if |h| == 1 {
      assert h == [h[0]];
      GroupStep(h[0], tail, p);
    } else {
      var q := p.(groups := p.groups + [h[0]]);
      var rest := ":" + Joined(h[1..]) + tail;
      JoinedReads(h[1..], tail, q);
      assert Joined(h) + tail == HexText(h[0]) + rest && rest[1..] == Joined(h[1..]) + tail;
      GroupStep(h[0], rest, p);
      assert q.groups + h[1..] == p.groups + h;
    }
  }

  lemma NotHex()
    ensures HexDigit(':').None? && HexDigit('.').None?
  {
  }

  lemma {:induction false} ZerosThere(g: seq<nat>, i: nat)
    requires i <= |g|
    ensures g[i..i + ZerosFrom(g, i)] == Zeros(ZerosFrom(g, i))
    decreases |g| - i
  {
    if i < |g| && g[i] == 0 { ZerosThere(g, i + 1); }
  }

  // The run that is shortened is the first of the longest.
  lemma {:induction false} LongestRunExactly(g: seq<nat>, i: nat, j: nat)
    requires j < i <= |g|
    ensures var e := LongestRun(g, i);
            ZerosFrom(g, j) <= ZerosFrom(g, e) && (j < e ==> ZerosFrom(g, j) < ZerosFrom(g, e))
  {
    if j < i - 1 { LongestRunExactly(g, i - 1, j); }
  }

  lemma JoinedNothing()
    ensures Joined([]) == ""
  {
  }

  // Groups around a run of zeros.
  lemma {:induction false} ExpandAround(left: seq<nat>, right: seq<nat>)
    requires |left| + |right| < 8
    ensures Expand(Partial(left + right, Some(|left|))) == Some(left + Zeros(8 - |left| - |right|) + right)
  {
    assert (left + right)[..|left|] == left && (left + right)[|left|..] == right;
  }

  lemma {:induction false} StartShortened(right: seq<nat>)
    requires |right| < 8 && forall i :: 0 <= i < |right| ==> right[i] <= 0xffff
    ensures ParseIPv6("::" + Joined(right)) == Some(Zeros(8 - |right|) + right)
  {
    hide ParseGroups, Expand, Joined, Zeros;
    JoinedNothing();
    ExpandAround([], right);
    assert [] + right == right && [] + Zeros(8 - |right|) == Zeros(8 - |right|);
    if right == [] {
      assert "::" + "" == "::" && Zeros(8) + [] == Zeros(8);
    } else {
      JoinedReads(right, "", Partial([], Some(0)));
      AfterEllipsis(Joined(right));
    }
  }

  lemma AfterEllipsis(rest: string)
    requires rest != ""
    ensures ParseIPv6("::" + rest) ==
            var parsed := ParseGroups(rest + "", Partial([], Some(0)));
            if parsed.None? then None else Expand(parsed.value)
  {
    hide ParseGroups, Expand;
    assert rest + "" == rest && ("::" + rest)[2..] == rest;
  }

  lemma {:induction false} InsideShortened(left: seq<nat>, right: seq<nat>)
    requires left != [] && |left| + |right| < 8
    requires forall i :: 0 <= i < |left| ==> left[i] <= 0xffff
    requires forall i :: 0 <= i < |right| ==> right[i] <= 0xffff
    ensures ParseIPv6(Joined(left) + "::" + Joined(right)) == Some(left + Zeros(8 - |left| - |right|) + right)
  {
    hide ParseGroups, Expand, Joined;
    var tail := "::" + Joined(right);
    var s := Joined(left) + "::" + Joined(right);
    var none, q := Partial([], None), Partial(left, Some(|left|));
    assert s == Joined(left) + tail && tail[2..] == Joined(right);
    JoinedNothing();
    JoinedReads(left, tail, none);
    assert [] + left == left;
    if right != [] {
      JoinedReads(right, "", q);
      assert Joined(right) + "" == Joined(right);
    } else {
      assert left + right == left;
    }
    assert ParseGroups(s, none) == Some(Partial(left + right, Some(|left|)));
    ExpandAround(left, right);
    assert s[0] == Joined(left)[0] && "::"[0] == ':';
  }

  lemma ShortenedReads(g: Groups, e: nat)
    requires e <= 8 && ZerosFrom(g, e) >= 2 && forall i :: 0 <= i < 8 ==> g[i] <= 0xffff
    ensures ParseIPv6(Joined(g[..e]) + "::" + Joined(g[e + ZerosFrom(g, e)..])) == Some(g)
  {
    hide ParseIPv6, Joined, ZerosFrom;
    var n := ZerosFrom(g, e);
    var left, right := g[..e], g[e + n..];
    ZerosThere(g, e);
    assert g == left + Zeros(n) + right;
    if e == 0 {
      JoinedNothing();
      StartShortened(right);
      assert left == [] && Joined(left) + "::" + Joined(right) == "::" + Joined(right);
      assert [] + Zeros(n) == Zeros(n);
    } else {
      InsideShortened(left, right);
    }
  }

  lemma {:induction false} NoDots(g: seq<nat>)
    ensures '.' !in Joined(g) && (|g| > 1 ==> ':' in Joined(g))
  {
    hide HexText, HexDigit;
    if g != [] {
      HexReads(g[0]);
      NotHex();
      NoDots(g[1..]);
    }
  }

  lemma {:induction false} ColonFirst(s: string)
    requires '.' !in s
    ensures !DotFirst(s)
  {
    if s != "" { ColonFirst(s[1..]); }
  }

  lemma DottedReads(g: Groups)
    requires IsIPv4(g) && g[6] <= 0xffff && g[7] <= 0xffff
    ensures ParseIPv4(Dotted(g)) == Some(g) && DotFirst(Dotted(g))
  {
    hide Split, DotFirst, Decimal.Render;
    var a, b, c, d := g[6] / 256, g[6] % 256, g[7] / 256, g[7] % 256;
    OctetReads(a);
    OctetReads(b);
    OctetReads(c);
    OctetReads(d);
    SplitInFour(Decimal.Render(a), Decimal.Render(b), Decimal.Render(c), Decimal.Render(d));
    FirstAt(Dotted(g), |Decimal.Render(a)|);
    assert g == g[..6] + [g[6], g[7]];
  }

  lemma OctetReads(n: nat)
    requires n <= 255
    ensures Octet(Decimal.Render(n)) && Decimal.Read(Decimal.Render(n)) == n
    ensures forall i :: 0 <= i < |Decimal.Render(n)| ==> Decimal.Render(n)[i] !in {'.', ':'}
  {
    Decimal.ReadsBack(n);
  }

  // The texts of the numbers up to 255, and no others.
  lemma OctetExactly(s: string)
    ensures Octet(s) <==> exists n :: 0 <= n <= 255 && s == Decimal.Render(n)
  {
    if Octet(s) { Decimal.RendersBack(s); }
    if n :| 0 <= n <= 255 && s == Decimal.Render(n) { Decimal.ReadsBack(n); }
  }

  lemma HexDigitExactly(c: char, d: nat)
    ensures HexDigit(c) == Some(d) <==> d < 16 && c in {"0123456789abcdef"[d], "0123456789ABCDEF"[d]}
  {
  }

  lemma IPv4Exactly(g: Groups)
    ensures IsIPv4(g) <==> (forall i :: 0 <= i < 5 ==> g[i] == 0) && g[5] == 0xffff
  {
    assert |IPV4_PREFIX| == 6 && IPV4_PREFIX[5] == 0xffff;
    assert g[..6] == [g[0], g[1], g[2], g[3], g[4], g[5]];
  }

  // Groups with a dotted tail.
  lemma {:induction false} JoinedThen(h: seq<nat>, rest: string, p: Partial)
    requires p.Fits() && h != [] && |p.groups| + |h| <= 8 && forall i :: 0 <= i < |h| ==> h[i] <= 0xffff
    requires rest != "" && rest[0] != ':'
    ensures ParseGroups(Joined(h) + ":" + rest, p) == ParseGroups(rest, p.(groups := p.groups + h))
    decreases |h|
  {
    hide LeadingHex, HexText, HexDigit, ParseGroups;
    var q := p.(groups := p.groups + [h[0]]);
    if |h| == 1 {
      assert h == [h[0]];
      var more := ":" + rest;
      assert Joined(h) + ":" + rest == HexText(h[0]) + more && more[1..] == rest;
      GroupStep(h[0], more, p);
    } else {
      var more := ":" + (Joined(h[1..]) + ":" + rest);
      assert Joined(h) + ":" + rest == HexText(h[0]) + more && more[1..] == Joined(h[1..]) + ":" + rest;
      GroupReads(h[1], "");
      JoinedStarts(h[1..]);
      GroupStep(h[0], more, p);
      JoinedThen(h[1..], rest, q);
      assert q.groups + h[1..] == p.groups + h;
    }
  }

  lemma JoinedStarts(h: seq<nat>)
    requires h != []
    ensures Joined(h) != "" && Joined(h)[0] == HexText(h[0])[0]
  {
  }

  // An octet is short enough to be taken for a group at first.
  lemma OctetIsHex(n: nat, rest: string)
    requires n <= 255 && rest != "" && rest[0] == '.'
    ensures var r := LeadingHex(Decimal.Render(n) + rest, 0);
            0 < r.1 == |Decimal.Render(n)| && r.0 <= 0xffff && (Decimal.Render(n) + rest)[r.1..] == rest
  {
    var s := Decimal.Render(n);
    Decimal.ReadsBack(n);
    assert |s| <= 3 by {
      assert n >= 10 ==> |s| == |Decimal.Render(n / 10)| + 1;
      assert n >= 100 ==> |Decimal.Render(n / 10)| == |Decimal.Render(n / 100)| + 1;
    }
    LeadingConcat(s, rest, 0);
    ShortHex(s, 0);
  }

  lemma {:induction false} ShortHex(s: string, n: nat)
    requires |s| <= 3 && (|s| == 3 ==> n == 0) && (|s| == 2 ==> n < 16) && (|s| == 1 ==> n < 256) && n < 4096
    ensures LeadingHex(s, n).0 < 4096
    decreases |s|
  {
    if s != "" && HexDigit(s[0]).Some? { ShortHex(s[1..], n * 16 + HexDigit(s[0]).value); }
  }

  lemma DottedIsTail(g: Groups, p: Partial)
    requires IsIPv4(g) && g[6] <= 0xffff && g[7] <= 0xffff && p.Fits() && |p.groups| < 8
    ensures ParseGroups(Dotted(g), p) == ParseTail(Dotted(g), p)
    ensures Dotted(g) != "" && Dotted(g)[0] != ':'
  {
    hide LeadingHex, Decimal.Render, Split;
    var a := Decimal.Render(g[6] / 256);
    var rest := Dotted(g)[|a|..];
    OctetReads(g[6] / 256);
    assert Dotted(g) == a + rest && rest[0] == '.';
    OctetIsHex(g[6] / 256, rest);
  }

  // No group is empty or exceeds 16 bits, and none follows eight.
  lemma GroupRefused(s: string, p: Partial)
    requires p.Fits() && (LeadingHex(s, 0).1 == 0 || LeadingHex(s, 0).0 > 0xffff || |p.groups| == 8)
    ensures ParseGroups(s, p).None?
  {
  }

  // A dotted tail takes the place of the last two groups, or of two before them
  // that an ellipsis makes up for.
  lemma TailExactly(s: string, p: Partial)
    requires p.Fits()
    ensures ParseTail(s, p).Some? <==>
            ParseIPv4(s).Some? && (|p.groups| == 6 || (p.ellipsis.Some? && |p.groups| < 6))
  {
  }

  // Six groups and an IPv4 address in dotted form: that address behind the groups.
  lemma {:induction false} DottedTailReads(h: seq<nat>, g: Groups)
    requires |h| == 6 && forall i :: 0 <= i < 6 ==> h[i] <= 0xffff
    requires IsIPv4(g) && g[6] <= 0xffff && g[7] <= 0xffff
    ensures ParseIPv6(Joined(h) + ":" + Dotted(g)) == Some(h + g[6..])
  {
    hide ParseGroups, Joined, Dotted;
    var none := Partial([], None);
    DottedIsTail(g, none);
    JoinedThen(h, Dotted(g), none);
    assert [] + h == h;
    DottedIsTail(g, Partial(h, None));
    DottedReads(g);
    assert |h + g[6..]| == 8;
    JoinedReads(h, "", none);
    assert (Joined(h) + ":" + Dotted(g))[0] == Joined(h)[0] && "::"[0] == ':';
  }

  lemma AllOnes()
    ensures Joined([0xffff]) == "ffff"
  {
    assert HexText(0xff) == "ff";
    assert HexText(0xfff) == "fff";
    assert HexText(0xffff) == "ffff";
  }

  // The mapped form of an IPv4 address is that address.
  lemma {:induction false} MappedReads(g: Groups)
    requires IsIPv4(g) && g[6] <= 0xffff && g[7] <= 0xffff
    ensures ParseIPv6("::ffff:" + Dotted(g)) == Some(g)
  {
    hide ParseGroups, Dotted, Joined, Expand, HexText, Zeros;
    var rest := "ffff:" + Dotted(g);
    var p, q := Partial([], Some(0)), Partial([0xffff], Some(0));
    AllOnes();
    DottedIsTail(g, q);
    DottedReads(g);
    JoinedThen([0xffff], Dotted(g), p);
    assert "ffff" + ":" + Dotted(g) == rest + "" && [] + [0xffff] == [0xffff];
    AfterEllipsis(rest);
    assert "::" + rest == "::ffff:" + Dotted(g);
    ExpandAround([], [0xffff] + g[6..]);
    MappedGroups(g);
  }

  lemma MappedGroups(g: Groups)
    requires IsIPv4(g)
    ensures [] + ([0xffff] + g[6..]) == [0xffff] + g[6..]
    ensures [] + Zeros(5) + ([0xffff] + g[6..]) == g
  {
    IPv4Exactly(g);
    assert g[6..] == [g[6], g[7]];
  }

  /** The text that is stored for an address parses as that address. */
  lemma TextReadsBack(g: Groups)
    requires forall i :: 0 <= i < 8 ==> g[i] <= 0xffff
    ensures ParseIP(Text(IP(g))) == IP(g)
  {
    hide Joined, ParseIPv4, ParseIPv6, Dotted, DotFirst, LongestRun, ZerosFrom, HexText;
    if IsIPv4(g) {
      DottedReads(g);
    } else {
      var e := LongestRun(g, 7);
      var n := ZerosFrom(g, e);
      NoDots(g);
      NoDots(g[..e]);
      NoDots(g[e + n..]);
      ColonFirst(Text(IP(g)));
      if n < 2 {
        AllReads(g);
      } else {
        ShortenedReads(g, e);
      }
    }
  }

  // What a cluster address excludes: itself, or all IPv6 addresses that share its
  // first 32 bits.
  lemma {:induction false} RangeExactly(g: Groups, h: Groups)
    requires forall i :: 0 <= i < 8 ==> g[i] <= 0xffff
    ensures ParseRange(Text(IP(g))).Some?
    ensures ParseRange(Text(IP(g))).value.Contains(IP(h)) <==>
            if IsIPv4(g) then h == g else !IsIPv4(h) && h[..2] == g[..2]
  {
    hide ParseIPv6, Joined, Dotted, LongestRun, ZerosFrom, DotFirst, Split;
    if IsIPv4(g) {
      DottedReads(g);
    } else {
      var e := LongestRun(g, 7);
      TextReadsBack(g);
      NoDots(g);
      NoDots(g[..e]);
      NoDots(g[e + ZerosFrom(g, e)..]);
      SplitLast(Text(IP(g)));
      ColonFirst(Text(IP(g)));
      assert h[..2] == [h[0], h[1]] && g[..2] == [g[0], g[1]];
    }
  }

  lemma AllReads(g: Groups)
    requires forall i :: 0 <= i < 8 ==> g[i] <= 0xffff
    ensures ParseIPv6(Joined(g)) == Some(g)
  {
    JoinedReads(g, "", Partial([], None));
    assert Joined(g) + "" == Joined(g) && [] + g == g;
  }

  /* ---- Particular addresses ---- */

  lemma ClusterAddress(d: string)
    requires d in {"5", "6"}
    ensures var g := IPV4_PREFIX + [0x0a00, if d == "5" then 5 else 6];
            ParseIPv4("10.0.0." + d) == Some(g) && ParseIP("10.0.0." + d) == IP(g)
  {
    hide Split;
    SplitInFour("10", "0", "0", d);
    var s := "10.0.0." + d;
    assert s == "10" + "." + "0" + "." + "0" + "." + d;
    assert Decimal.Read("10") == 10 && Decimal.Read("0") == 0;
    FirstAt(s, 2);
  }

  // A VM whose only routable address is the one the API server answers on.
  lemma OnlyTheClusterAddress(ip: string)
    ensures var report: Report := map["lo" := ["127.0.0.1"], "eth0" := ["10.0.0.5"]];
            Chosen(ip, Usable(report, Ranges({"10.0.0.5", "10.0.0.6"}))) <==> ip == ""
  {
    hide ParseIP, ParseIPv4, ParseIPv6, Text;
    var report: Report := map["lo" := ["127.0.0.1"], "eth0" := ["10.0.0.5"]];
    var excluded := Ranges({"10.0.0.5", "10.0.0.6"});
    ClusterAddress("5");
    assert "10.0.0." + "5" == "10.0.0.5";
    assert ParseRange("10.0.0.5").value in excluded;
    assert Kept(["10.0.0.5"], excluded) == [];
    assert "lo"[0] == 'l' && "en"[0] == 'e' && "eth"[0] == 'e' && "br-ex"[0] == 'b';
    assert Usable(report, excluded) == map[];
  }

  // Four digits and what follows them.
  lemma FourDigits(s: string)
    requires |s| > 4 && HexDigit(s[4]).None? && forall i :: 0 <= i < 4 ==> HexDigit(s[i]).Some?
    ensures var n := ((HexDigit(s[0]).value * 16 + HexDigit(s[1]).value) * 16 + HexDigit(s[2]).value) * 16
                     + HexDigit(s[3]).value;
            LeadingHex(s, 0) == (n, 4)
  {
    var n1 := HexDigit(s[0]).value;
    var n2 := n1 * 16 + HexDigit(s[1]).value;
    var n3 := n2 * 16 + HexDigit(s[2]).value;
    var n4 := n3 * 16 + HexDigit(s[3]).value;
    assert s[1..][1..] == s[2..] && s[2..][1..] == s[3..] && s[3..][1..] == s[4..];
    assert LeadingHex(s[4..], n4) == (n4, 0);
    assert LeadingHex(s[3..], n3) == (n4, 1);
    assert LeadingHex(s[2..], n2) == (n4, 2);
    assert LeadingHex(s[1..], n1) == (n4, 3);
  }

  lemma OneDigit(s: string)
    requires s != "" && HexDigit(s[0]).Some? && (|s| > 1 ==> HexDigit(s[1]).None?)
    ensures LeadingHex(s, 0) == (HexDigit(s[0]).value, 1)
  {
  }

  lemma PrefixAddress(d: string)
    requires |d| == 1 && HexDigit(d[0]).Some?
    ensures ParseIPv6("fd00::" + d) == Some([0xfd00, 0, 0, 0, 0, 0, 0, HexDigit(d[0]).value])
    ensures ParseIP("fd00::" + d) == IP([0xfd00, 0, 0, 0, 0, 0, 0, HexDigit(d[0]).value])
    ensures !IsIPv4([0xfd00, 0, 0, 0, 0, 0, 0, HexDigit(d[0]).value])
    ensures ParseRange("fd00::" + d) == Some(Prefix(0xfd00, 0))
  {
    hide LeadingHex, Split, DotFirst;
    var s := "fd00::" + d;
    FourDigits(s);
    OneDigit(d);
    FirstAt(s, 4);
    SplitLast(s);
    assert s[4..] == "::" + d && s[4..][2..] == d;
    var q, v := Partial([0xfd00], Some(1)), HexDigit(d[0]).value;
    assert q.groups + [v] == [0xfd00, v] && Zeros(6) == [0, 0, 0, 0, 0, 0];
    assert ParseGroups(d, q) == Some(Partial([0xfd00, v], Some(1)));
    assert Partial([], None).groups + [0xfd00] == [0xfd00];
    assert ParseGroups(s, Partial([], None)) == Some(Partial([0xfd00, v], Some(1)));
    assert !("::" <= s) by { assert s[0] == 'f'; }
    var g := [0xfd00, 0, 0, 0, 0, 0, 0, v];
    assert [0xfd00, v][..1] + Zeros(6) + [0xfd00, v][1..] == g;
    assert g[..6][0] == 0xfd00;
  }

  // An IPv6 cluster address keeps all of its /32 from being found: this VM has an
  // address of its own and gets an empty one.
  lemma WholePrefixExcluded(ip: string)
    ensures var report: Report := map["eth0" := ["fd00::9"]];
            Chosen(ip, Usable(report, Ranges({"fd00::5", "fd00::6"}))) <==> ip == ""
  {
    hide ParseIP, ParseIPv4, ParseIPv6, ParseRange, Text;
    var report: Report := map["eth0" := ["fd00::9"]];
    var excluded := Ranges({"fd00::5", "fd00::6"});
    PrefixAddress("5");
    PrefixAddress("9");
    assert "fd00::" + "5" == "fd00::5" && "fd00::" + "9" == "fd00::9";
    assert ParseRange("fd00::5").value in excluded;
    assert Kept(["fd00::9"], excluded) == [];
    assert Usable(report, excluded) == map[];
  }

  // An address that does not parse, such as one with a zone, is found as a text
  // that is no address.
  lemma UnparsedIsFound(ip: string, excluded: set<Range>)
    ensures var report: Report := map["eth0" := ["fe80::1%eth0"]];
            Chosen(ip, Usable(report, excluded)) <==> ip == "<nil>"
  {
    hide ParseIP;
    var report: Report := map["eth0" := ["fe80::1%eth0"]];
    ZoneDoesNotParse();
    assert Kept(["fe80::1%eth0"], excluded) == [NoIP];
    var nics := Usable(report, excluded);
    assert nics == map["eth0" := [NoIP]];
    assert nics["eth0"][0] == NoIP;
  }

  lemma ZoneDoesNotParse()
    ensures ParseIP("fe80::1%eth0") == NoIP
  {
    hide LeadingHex, DotFirst;
    var s := "fe80::1%eth0";
    FourDigits(s);
    FirstAt(s, 4);
    assert s[4..] == "::1%eth0" && s[4..][2..] == "1%eth0";
    OneDigit("1%eth0");
    assert "1%eth0"[1..] == "%eth0";
  }

  // An Infrastructure object without an address never parses.
  lemma MissingAddressNeverParses(other: string)
    ensures !AllParse({"", other})
  {
    assert Split("") == [""];
    assert ParseIPv6("").None?;
    assert "" in {"", other};
  }
}
