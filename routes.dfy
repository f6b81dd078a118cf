/** The controller routes of the HTTP API and the two helpers that extend a
    route with an id or with the list postfix. */
module Routes {
  import opened Wrappers

  /** The C# `long` the id helper takes. */
  newtype int64 = x: int | -0x8000_0000_0000_0000 <= x < 0x8000_0000_0000_0000

  /** The root controller. */
  const Root := "/"

  const Administration := Root + "Administration"
  const User := Root + "User"
  const InstanceManager := Root + "Instance"
  const Byond := Root + "Byond"
  const Repository := Root + "Repository"
  const DreamDaemon := Root + "DreamDaemon"
  const Configuration := Root + "Config"

  /** Paired with `Configuration` to address configuration files. */
  const File := "File"
  const ConfigurationFile := Configuration + "/" + File

  const InstanceUser := Root + "InstanceUser"
  const Chat := Root + "Chat"
  const DreamMaker := Root + "DreamMaker"
  const Jobs := Root + "Job"

  /** The postfix for list operations. */
  const List := "List"

  /** Every controller route, in declaration order. */
  const ControllerRoutes := [Administration, User, InstanceManager, Byond, Repository,
                             DreamDaemon, Configuration, InstanceUser, Chat, DreamMaker, Jobs]

  /** A route that is the root followed by one path segment. */
  predicate IsTopLevel(route: string) {
    |route| > 1 && route[0] == '/' && '/' !in route[1..]
  }

  /** The root followed by a segment without a slash is a top-level route. */
  lemma SegmentIsTopLevel(segment: string)
    requires |segment| > 0 && '/' !in segment
    ensures IsTopLevel(Root + segment)
  {
    assert (Root + segment)[1..] == segment;
  }

  lemma ControllerRouteConstants()
    ensures User == "/User" && Jobs == "/Job" && InstanceManager == "/Instance"
    ensures ConfigurationFile == "/Config/File"
    ensures forall i :: 0 <= i < |ControllerRoutes| ==> IsTopLevel(ControllerRoutes[i])
  {
    SegmentIsTopLevel("Administration");
    SegmentIsTopLevel("User");
    SegmentIsTopLevel("Instance");
    SegmentIsTopLevel("Byond");
    SegmentIsTopLevel("Repository");
    SegmentIsTopLevel("DreamDaemon");
    SegmentIsTopLevel("Config");
    SegmentIsTopLevel("InstanceUser");
    SegmentIsTopLevel("Chat");
    SegmentIsTopLevel("DreamMaker");
    SegmentIsTopLevel("Job");
  }

  // ---- invariant-culture decimal formatting of integers ----

  predicate IsDigit(c: char) {
    '0' <= c <= '9'
  }

  predicate AllDigits(s: string) {
    forall i :: 0 <= i < |s| ==> IsDigit(s[i])
  }

  function DigitChar(d: nat): (c: char)
    requires d < 10
    ensures IsDigit(c)
  {
    ('0' as int + d) as char
  }

  function DigitValue(c: char): (d: nat)
    requires IsDigit(c)
    ensures d < 10
  {
    c as int - '0' as int
  }

  /** The digits of `n`: at least one, only digits, no group separators and
      no leading zero except for zero itself. */
  function NatDigits(n: nat): (r: string)
    ensures |r| >= 1 && AllDigits(r)
    ensures r[0] == '0' ==> n == 0 && |r| == 1
    decreases n
  {
    if n < 10 then [DigitChar(n)] else NatDigits(n / 10) + [DigitChar(n % 10)]
  }

  /** The `{1}` of the id format string: an optional minus sign and the
      digits of the magnitude. */
  function Decimal(n: int): (r: string)
    ensures |r| >= 1 && (r[0] == '-' <==> n < 0)
    ensures n < 0 ==> |r| >= 2 && AllDigits(r[1..]) && r[1] != '0'
    ensures n >= 0 ==> AllDigits(r) && (r[0] == '0' ==> r == "0")
  {
    if n < 0 then "-" + NatDigits(-n) else NatDigits(n)
  }

  /** Reads a run of digits back as a number. */
  function ParseNat(s: string): nat
    requires AllDigits(s)
  {
    if s == [] then 0 else ParseNat(s[..|s| - 1]) * 10 + DigitValue(s[|s| - 1])
  }

  /** Reads the output of `Decimal` back; anything else gives `None`. */
  function ParseDecimal(s: string): Option<int> {
    if |s| >= 2 && s[0] == '-' && AllDigits(s[1..]) then Some(0 - ParseNat(s[1..]) as int)
    else if |s| >= 1 && AllDigits(s) then Some(ParseNat(s))
    else None
  }

  lemma {:induction false} ParseNatDigits(n: nat)
    ensures ParseNat(NatDigits(n)) == n
    decreases n
  {
    if n >= 10 {
      var s := NatDigits(n);
      assert s[..|s| - 1] == NatDigits(n / 10);
      assert s[|s| - 1] == DigitChar(n % 10);
      ParseNatDigits(n / 10);
    }
  }

  /** A run of digits parses as its own value. */
  lemma ParseDigitsRun(s: string)
    requires |s| >= 1 && AllDigits(s)
    ensures ParseDecimal(s) == Some(ParseNat(s))
  {
    assert IsDigit(s[0]);
  }

  /** A minus sign before a run of digits parses as the negated value. */
  lemma ParseSignedRun(t: string)
    requires |t| >= 1 && AllDigits(t)
    ensures ParseDecimal("-" + t) == Some(0 - ParseNat(t) as int)
  {
    var s := "-" + t;
    assert s[0] == '-' && s[1..] == t;
  }

  /** Formatting an integer and parsing it back gives the same integer. */
  lemma DecimalRoundTrip(n: int)
    ensures ParseDecimal(Decimal(n)) == Some(n)
  {
    if n < 0 {
      var t := NatDigits(-n);
      assert Decimal(n) == "-" + t;
      ParseSignedRun(t);
      ParseNatDigits(-n);
      assert ParseNat(t) == -n;
    } else {
      var t := NatDigits(n);
      assert Decimal(n) == t;
      ParseDigitsRun(t);
      ParseNatDigits(n);
      assert ParseNat(t) == n;
    }
  }

  /** `SetID`: the route, a slash and the id in invariant-culture decimal.
      What follows the route and the slash parses back to the id. */
  function SetID(route: string, id: int64): (r: string)
    ensures |r| > |route| + 1 && r[..|route| + 1] == route + "/"
    ensures ParseDecimal(r[|route| + 1..]) == Some(id as int)
  {
    var r := route + "/" + Decimal(id as int);
    assert r[|route| + 1..] == Decimal(id as int);
    DecimalRoundTrip(id as int);
    r
  }

  /** For a fixed route, distinct ids give distinct paths. */
  lemma SetIDInjective(route: string, a: int64, b: int64)
    ensures SetID(route, a) == SetID(route, b) <==> a == b
  {
  }

  /** `ListRoute`: the route followed by "/List". */
  function ListRoute(route: string): (r: string)
    ensures |r| == |route| + 5 && r[..|route|] == route && r[|route|..] == "/List"
  {
    route + "/" + List
  }

  /** The list path of a route is never the path of one of its ids. */
  lemma ListRouteIsNoId(route: string, id: int64)
    ensures ListRoute(route) != SetID(route, id)
  {
    var l := ListRoute(route);
    assert l[|route| + 1..] == "List";
    assert !IsDigit("List"[0]) && !AllDigits("List");
    assert ParseDecimal("List") == None;
  }
}
