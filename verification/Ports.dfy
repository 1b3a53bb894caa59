/** Port normalisation (internal/api/handlers.go, sanitizePorts and
    validatePortName). */
module Ports {
  import opened Text
  import Decimal

  datatype PortSpec = PortSpec(name: string, port: int, protocol: string, primary: bool)

  datatype Error = InvalidPort | InvalidProtocol | DuplicatePort | InvalidName | DuplicateName | TwoPrimaries

  datatype Result = Ok(ports: seq<PortSpec>) | Err(error: Error)

  // ---- names and protocols ----

  predicate IsLower(c: char) { 'a' <= c <= 'z' }

  predicate IsAlnum(c: char) { IsLower(c) || '0' <= c <= '9' }

  /** validatePortName: what Kubernetes takes for a port's name. */
  predicate ValidName(name: string) {
    && 0 < |name| <= 15
    && (forall i | 0 <= i < |name| :: IsAlnum(name[i]) || name[i] == '-')
    && IsAlnum(name[0]) && IsAlnum(name[|name| - 1])
    && exists i | 0 <= i < |name| :: IsLower(name[i])
  }

  /** Case as far as the letters of TCP and UDP go. */
  function ToUpper(s: string): (t: string)
    ensures |t| == |s|
  {
    seq(|s|, i requires 0 <= i < |s| => if IsLower(s[i]) then s[i] - 'a' + 'A' else s[i])
  }

  function ToLower(s: string): (t: string)
    ensures |t| == |s|
  {
    seq(|s|, i requires 0 <= i < |s| => if 'A' <= s[i] <= 'Z' then s[i] - 'A' + 'a' else s[i])
  }

  /** The protocol asked for, TCP when none is. */
  function ProtocolOf(p: PortSpec): string {
    var proto := ToUpper(TrimSpace(p.protocol));
    if proto == "" then "TCP" else proto
  }

  predicate IsProtocol(proto: string) { proto == "TCP" || proto == "UDP" }

  function Count(ports: seq<PortSpec>, port: int): nat {
    if ports == [] then 0
    else Count(ports[..|ports| - 1], port) + if ports[|ports| - 1].port == port then 1 else 0
  }

  /** The name asked for, or one made from the port, and from the protocol too
      where the port is listed twice. */
  function NameOf(all: seq<PortSpec>, p: PortSpec): string
    requires p.port >= 0
  {
    var name := TrimSpace(p.name);
    if name != "" then name
    else if Count(all, p.port) > 1 then "p" + Decimal.Digits(p.port) + "-" + ToLower(ProtocolOf(p))
    else "p" + Decimal.Digits(p.port)
  }

  // ---- what a list of ports must be, and what becomes of it ----

  predicate InRange(p: PortSpec) { 1 <= p.port <= 65535 }

  predicate Admitted(all: seq<PortSpec>, p: PortSpec) {
    InRange(p) && IsProtocol(ProtocolOf(p)) && ValidName(NameOf(all, p))
  }

  function Pair(p: PortSpec): (int, string) { (p.port, ProtocolOf(p)) }

  predicate Primaries(ports: seq<PortSpec>, n: nat)
    requires n <= |ports|
  {
    forall i, j | 0 <= i < j < n :: !(ports[i].primary && ports[j].primary)
  }

  /** The first n ports can stand beside each other. */
  predicate AcceptableTo(all: seq<PortSpec>, n: nat)
    requires n <= |all|
  {
    && (forall i | 0 <= i < n :: Admitted(all, all[i]))
    && (forall i, j | 0 <= i < j < n :: Pair(all[i]) != Pair(all[j]) && NameOf(all, all[i]) != NameOf(all, all[j]))
  }

  predicate Acceptable(all: seq<PortSpec>) { AcceptableTo(all, |all|) && Primaries(all, |all|) }

  predicate HasPrimary(ports: seq<PortSpec>) { exists i | 0 <= i < |ports| :: ports[i].primary }

  /** The list in its own order, names and protocols filled in, the first port
      primary when none is. */
  function Normalized(all: seq<PortSpec>): (out: seq<PortSpec>)
    requires Acceptable(all)
    ensures |out| == |all|
  {
    seq(|all|, i requires 0 <= i < |all| =>
      PortSpec(NameOf(all, all[i]), all[i].port, ProtocolOf(all[i]), all[i].primary || (i == 0 && !HasPrimary(all))))
  }

  /** What each refusal says of the list. */
  predicate Blames(all: seq<PortSpec>, e: Error) {
    match e
    case InvalidPort => exists i | 0 <= i < |all| :: !InRange(all[i])
    case InvalidProtocol => exists i | 0 <= i < |all| :: !IsProtocol(ProtocolOf(all[i]))
    case InvalidName => exists i | 0 <= i < |all| :: InRange(all[i]) && !ValidName(NameOf(all, all[i]))
    case DuplicatePort => exists i, j | 0 <= i < j < |all| :: Pair(all[i]) == Pair(all[j])
    case DuplicateName =>
      exists i, j | 0 <= i < j < |all| :: InRange(all[i]) && InRange(all[j]) && NameOf(all, all[i]) == NameOf(all, all[j])
    case TwoPrimaries => !Primaries(all, |all|)
  }

  function PrimaryCount(ports: seq<PortSpec>, n: nat): nat
    requires n <= |ports|
  {
    if n == 0 then 0 else PrimaryCount(ports, n - 1) + if ports[n - 1].primary then 1 else 0
  }

  lemma {:induction false} PrimariesAreCounted(ports: seq<PortSpec>, n: nat)
    requires n <= |ports|
    ensures PrimaryCount(ports, n) <= 1 <==> Primaries(ports, n)
    ensures PrimaryCount(ports, n) == 0 <==> forall i | 0 <= i < n :: !ports[i].primary
    decreases n
  {
    if n > 0 { PrimariesAreCounted(ports, n - 1); }
  }

  /** What the loop knows of the first i ports: the pairs and the names it has
      seen are theirs. */
  predicate Seen(all: seq<PortSpec>, i: nat, pairs: set<(int, string)>, names: set<string>)
    requires i <= |all|
  {
    && AcceptableTo(all, i)
    && pairs == (set k | 0 <= k < i :: Pair(all[k]))
    && names == set k | 0 <= k < i :: NameOf(all, all[k])
  }

  lemma SeesOneMore(all: seq<PortSpec>, i: nat, pairs: set<(int, string)>, names: set<string>)
    requires i < |all| && Seen(all, i, pairs, names) && Admitted(all, all[i])
    requires Pair(all[i]) !in pairs && NameOf(all, all[i]) !in names
    ensures Seen(all, i + 1, pairs + {Pair(all[i])}, names + {NameOf(all, all[i])})
  {
    hide NameOf, ValidName, ProtocolOf;
  }

  lemma SeesAgain(all: seq<PortSpec>, i: nat, pairs: set<(int, string)>, names: set<string>)
    requires i < |all| && Seen(all, i, pairs, names) && InRange(all[i])
    ensures Pair(all[i]) in pairs ==> !Acceptable(all) && Blames(all, DuplicatePort)
    ensures NameOf(all, all[i]) in names ==> !Acceptable(all) && Blames(all, DuplicateName)
  {
    hide NameOf, ValidName, ProtocolOf;
    if Pair(all[i]) in pairs {
      var k :| 0 <= k < i && Pair(all[k]) == Pair(all[i]);
    }
    if NameOf(all, all[i]) in names {
      var k :| 0 <= k < i && NameOf(all, all[k]) == NameOf(all, all[i]);
      assert Admitted(all, all[k]);
    }
  }

  lemma NotAdmitted(all: seq<PortSpec>, i: nat)
    requires i < |all|
    ensures !InRange(all[i]) ==> !Acceptable(all) && Blames(all, InvalidPort)
    ensures !IsProtocol(ProtocolOf(all[i])) ==> !Acceptable(all) && Blames(all, InvalidProtocol)
    ensures InRange(all[i]) && !ValidName(NameOf(all, all[i])) ==> !Acceptable(all) && Blames(all, InvalidName)
  {
    hide NameOf, ValidName, ProtocolOf;
    if Acceptable(all) { assert Admitted(all, all[i]); }
  }

  /** A port as the loop leaves it, before one is made primary. */
  function Rewritten(all: seq<PortSpec>, p: PortSpec): PortSpec
    requires p.port >= 0
  {
    PortSpec(NameOf(all, p), p.port, ProtocolOf(p), p.primary)
  }

  lemma LoopIsNormalized(all: seq<PortSpec>, out: seq<PortSpec>)
    requires Acceptable(all) && |out| == |all|
    requires forall k | 0 <= k < |all| :: all[k].port >= 0 && out[k] == Rewritten(all, all[k])
    ensures Normalized(all) == if !HasPrimary(all) && all != [] then out[0 := out[0].(primary := true)] else out
  {
    hide NameOf, ProtocolOf, Acceptable;
  }

  method CountPorts(all: seq<PortSpec>) returns (portCount: map<int, nat>)
    ensures forall port :: Count(all, port) == if port in portCount then portCount[port] else 0
  {
    portCount := map[];
    for i := 0 to |all|
      invariant forall port :: Count(all[..i], port) == if port in portCount then portCount[port] else 0
    {
      var port := all[i].port;
      assert all[..i + 1][..i] == all[..i];
      portCount := portCount[port := (if port in portCount then portCount[port] else 0) + 1];
    }
    assert all[..|all|] == all;
  }

  /** What the loop does with a port by itself, up to the checks of its number
      and its protocol. */
  method Fill(ghost all: seq<PortSpec>, p: PortSpec, portCount: map<int, nat>) returns (proto: string, name: string, e: Option<Error>)
    requires forall port :: Count(all, port) == if port in portCount then portCount[port] else 0
    ensures e == if !InRange(p) then Some(InvalidPort) else if !IsProtocol(ProtocolOf(p)) then Some(InvalidProtocol) else None
    ensures e == None ==> proto == ProtocolOf(p) && name == NameOf(all, p)
  {
    proto, name := "", "";
    if p.port < 1 || p.port > 65535 {
      return proto, name, Some(InvalidPort);
    }
    proto := ToUpper(TrimSpace(p.protocol));
    if proto == "" {
      proto := "TCP";
    }
    if proto != "TCP" && proto != "UDP" {
      return proto, name, Some(InvalidProtocol);
    }
    name := TrimSpace(p.name);
    if name == "" {
      if p.port in portCount && portCount[p.port] > 1 {
        name := "p" + Decimal.Digits(p.port) + "-" + ToLower(proto);
      } else {
        name := "p" + Decimal.Digits(p.port);
      }
    }
    e := None;
  }

  /** A list is taken exactly when every port is in range, its protocol known and
      its name valid, no pair of port and protocol and no name comes twice, and
      one port at most is primary; the reason of a refusal is true of it. */
  method SanitizePorts(all: seq<PortSpec>) returns (r: Result)
    ensures r.Ok? <==> Acceptable(all)
    ensures r.Ok? ==> r.ports == Normalized(all)
    ensures r.Err? ==> Blames(all, r.error)
  {
    hide ValidName, Blames, Seen, Acceptable, HasPrimary, Normalized, NameOf, ProtocolOf, Count, IsProtocol;
    var out: seq<PortSpec> := [];
    var primaries: nat := 0;
    var seen: set<(int, string)>, seenName: map<string, int> := {}, map[];
    var portCount := CountPorts(all);
    ghost var names: set<string> := {};
    NoneSeen(all);
    for i := 0 to |all|
      invariant |out| == i && Seen(all, i, seen, names)
      invariant forall n :: n in names <==> n in seenName
      invariant forall k | 0 <= k < i :: all[k].port >= 0 && out[k] == Rewritten(all, all[k])
      invariant primaries == PrimaryCount(all, i)
    {
      var p := all[i];
      NotAdmitted(all, i);
      var proto, name, error := Fill(all, p, portCount);
      if error.Some? {
        return Err(error.value);
      }
      SeesAgain(all, i, seen, names);
      if (p.port, proto) in seen {
        return Err(DuplicatePort);
      }
      if !ValidName(name) {
        return Err(InvalidName);
      }
      if name in seenName {
        return Err(DuplicateName);
      }
      SeesOneMore(all, i, seen, names);
      seen := seen + {(p.port, proto)};
      seenName := seenName[name := p.port];
      names := names + {name};
      if p.primary {
        primaries := primaries + 1;
      }
      out := out + [PortSpec(name, p.port, proto, p.primary)];
    }
    AllSeen(all, seen, names);
    if primaries > 1 {
      return Err(TwoPrimaries);
    }
    LoopIsNormalized(all, out);
    if primaries == 0 && |out| > 0 {
      out := out[0 := out[0].(primary := true)];
    }
    return Ok(out);
  }

  lemma NoneSeen(all: seq<PortSpec>)
    ensures Seen(all, 0, {}, {})
  {}

  lemma AllSeen(all: seq<PortSpec>, pairs: set<(int, string)>, names: set<string>)
    requires Seen(all, |all|, pairs, names)
    ensures Acceptable(all) <==> Primaries(all, |all|)
    ensures !Primaries(all, |all|) ==> Blames(all, TwoPrimaries)
    ensures PrimaryCount(all, |all|) == 0 <==> !HasPrimary(all)
    ensures PrimaryCount(all, |all|) <= 1 <==> Primaries(all, |all|)
  {
    hide NameOf, ValidName, ProtocolOf, AcceptableTo, Primaries;
    PrimariesAreCounted(all, |all|);
  }

  // ---- what a sanitized list is ----

  /** The ports keep their order; pairs and names are unique; every name is one
      Kubernetes takes; and a list that is not empty has exactly one primary. */
  lemma SanitizedIsSound(all: seq<PortSpec>)
    requires Acceptable(all)
    ensures var out := Normalized(all);
      && (forall i | 0 <= i < |out| ::
            out[i].port == all[i].port && IsProtocol(out[i].protocol) && ValidName(out[i].name) && InRange(out[i]))
      && (forall i, j | 0 <= i < j < |out| ::
            (out[i].port, out[i].protocol) != (out[j].port, out[j].protocol) && out[i].name != out[j].name)
      && (out != [] ==> exists i | 0 <= i < |out| :: out[i].primary && forall j | 0 <= j < |out| && j != i :: !out[j].primary)
  {
    hide NameOf, ValidName, ProtocolOf;
    var out := Normalized(all);
    forall i, j | 0 <= i < j < |out|
      ensures (out[i].port, out[i].protocol) != (out[j].port, out[j].protocol) && out[i].name != out[j].name
    {
      assert Pair(all[i]) != Pair(all[j]);
    }
    forall i | 0 <= i < |out| ensures IsProtocol(out[i].protocol) && ValidName(out[i].name) && InRange(out[i]) {
      assert Admitted(all, all[i]);
    }
    if out != [] {
      var i := if HasPrimary(all) then PrimaryOf(all) else 0;
      assert out[i].primary;
      forall j | 0 <= j < |out| && j != i ensures !out[j].primary {}
    }
  }

  function PrimaryOf(all: seq<PortSpec>): (i: nat)
    requires HasPrimary(all)
    ensures i < |all| && all[i].primary
  {
    if all[0].primary then 0
    else
      assert HasPrimary(all[1..]) by {
        var k :| 0 <= k < |all| && all[k].primary;
        assert all[1..][k - 1].primary;
      }
      1 + PrimaryOf(all[1..])
  }

  lemma ValidIsTrimmed(name: string)
    requires ValidName(name)
    ensures TrimSpace(name) == name && name != ""
  {
    assert forall i | 0 <= i < |name| :: !IsSpace(name[i]);
    TrimSpaceTrims(name);
  }

  lemma ProtocolStays(p: PortSpec)
    requires IsProtocol(p.protocol)
    ensures ProtocolOf(p) == p.protocol
  {
    var s := p.protocol;
    assert Trimmed(s);
    TrimSpaceTrims(s);
    assert ToUpper("TCP") == "TCP" && ToUpper("UDP") == "UDP";
  }

  /** Sanitizing a sanitized list changes nothing. */
  lemma SanitizeTwice(all: seq<PortSpec>)
    requires Acceptable(all)
    ensures Acceptable(Normalized(all)) && Normalized(Normalized(all)) == Normalized(all)
  {
    hide ValidName, ProtocolOf, TrimSpace, IsProtocol, Normalized;
    var out := Normalized(all);
    SanitizedIsSound(all);
    forall i | 0 <= i < |out| ensures NameOf(out, out[i]) == out[i].name && ProtocolOf(out[i]) == out[i].protocol {
      ValidIsTrimmed(out[i].name);
      ProtocolStays(out[i]);
    }
    assert AcceptableTo(out, |out|) by { hide NameOf; }
    TwiceIsOnce(out);
  }

  lemma TwiceIsOnce(out: seq<PortSpec>)
    requires AcceptableTo(out, |out|)
    requires forall i | 0 <= i < |out| :: NameOf(out, out[i]) == out[i].name && ProtocolOf(out[i]) == out[i].protocol
    requires out != [] ==> exists i | 0 <= i < |out| :: out[i].primary && forall j | 0 <= j < |out| && j != i :: !out[j].primary
    ensures Acceptable(out) && Normalized(out) == out
  {
    hide NameOf, ProtocolOf, Admitted;
    assert out != [] ==> HasPrimary(out);
  }

  // ---- lists without names ----

  lemma {:induction false} CountsTwice(all: seq<PortSpec>, i: nat, j: nat)
    requires i < j < |all| && all[i].port == all[j].port
    ensures Count(all, all[i].port) > 1
    decreases |all|
  {
    var rest := all[..|all| - 1];
    if j < |rest| { CountsTwice(rest, i, j); } else { CountsOnce(rest, i); }
  }

  lemma {:induction false} CountsOnce(all: seq<PortSpec>, i: nat)
    requires i < |all|
    ensures Count(all, all[i].port) > 0
    decreases |all|
  {
    if i < |all| - 1 { CountsOnce(all[..|all| - 1], i); }
  }

  lemma ShortDigits(n: nat)
    requires n <= 65535
    ensures |Decimal.Digits(n)| <= 5
  {
    assert |Decimal.Digits(n / 10 / 10 / 10 / 10)| == 1;
    assert |Decimal.Digits(n / 10 / 10 / 10)| <= 2;
    assert |Decimal.Digits(n / 10 / 10)| <= 3;
    assert |Decimal.Digits(n / 10)| <= 4;
  }

  lemma MadeNameIsValid(all: seq<PortSpec>, p: PortSpec)
    requires InRange(p) && IsProtocol(ProtocolOf(p)) && TrimSpace(p.name) == ""
    ensures ValidName(NameOf(all, p))
  {
    hide ProtocolOf, TrimSpace;
    var name, digits := NameOf(all, p), Decimal.Digits(p.port);
    ShortDigits(p.port);
    assert ToLower("TCP") == "tcp" && ToLower("UDP") == "udp";
    assert forall i | 0 <= i < |digits| :: Decimal.IsDigit(digits[i]) by {
      forall i | 0 <= i < |digits| ensures Decimal.IsDigit(digits[i]) { assert digits[i] in digits; }
    }
    assert name[0] == 'p';
    assert forall i | 1 <= i <= |digits| :: name[i] == digits[i - 1];
  }

  /** Made names differ when the pairs of port and protocol do. */
  lemma MadeNamesDiffer(all: seq<PortSpec>, i: nat, j: nat)
    requires i < j < |all| && InRange(all[i]) && InRange(all[j]) && Pair(all[i]) != Pair(all[j])
    requires IsProtocol(ProtocolOf(all[i])) && IsProtocol(ProtocolOf(all[j]))
    requires TrimSpace(all[i].name) == TrimSpace(all[j].name) == ""
    ensures NameOf(all, all[i]) != NameOf(all, all[j])
  {
    hide ProtocolOf, TrimSpace, Count;
    var a, b := NameOf(all, all[i]), NameOf(all, all[j]);
    var d, e := Decimal.Digits(all[i].port), Decimal.Digits(all[j].port);
    assert ToLower("TCP") == "tcp" && ToLower("UDP") == "udp";
    if all[i].port == all[j].port {
      CountsTwice(all, i, j);
      assert a[1 + |d| + 1] != b[1 + |d| + 1];
    } else if a == b {
      DigitsEnd(a, d, e);
      Decimal.DigitsAreUnique(all[i].port, all[j].port);
    }
  }

  /** Digits go on to the end of a name or to its dash. */
  lemma DigitsEnd(a: string, d: string, e: string)
    requires "p" + d <= a && "p" + e <= a && Decimal.AllDigits(d) && Decimal.AllDigits(e)
    requires |a| > |d| + 1 ==> a[|d| + 1] == '-'
    requires |a| > |e| + 1 ==> a[|e| + 1] == '-'
    ensures d == e
  {
    forall k | 0 <= k < |d| ensures d[k] == a[k + 1] && d[k] != '-' { assert d[k] in d; }
    forall k | 0 <= k < |e| ensures e[k] == a[k + 1] && e[k] != '-' { assert e[k] in e; }
    assert d == a[1..|d| + 1] && e == a[1..|e| + 1];
  }

  /** A list without names, of distinct pairs in range with one primary at most,
      is never refused. */
  lemma BlankNamesAreAccepted(all: seq<PortSpec>)
    requires forall i | 0 <= i < |all| :: InRange(all[i]) && IsProtocol(ProtocolOf(all[i])) && TrimSpace(all[i].name) == ""
    requires forall i, j | 0 <= i < j < |all| :: Pair(all[i]) != Pair(all[j])
    requires Primaries(all, |all|)
    ensures Acceptable(all)
  {
    hide NameOf, ValidName, ProtocolOf, TrimSpace, IsProtocol;
    forall i | 0 <= i < |all| ensures Admitted(all, all[i]) { MadeNameIsValid(all, all[i]); }
    forall i, j | 0 <= i < j < |all| ensures NameOf(all, all[i]) != NameOf(all, all[j]) { MadeNamesDiffer(all, i, j); }
  }
}
