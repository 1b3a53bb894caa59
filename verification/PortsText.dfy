/** What port normalisation takes and gives, told on the text of names and
    protocols. */
module PortsText {
  import opened Text
  import opened Ports
  import Decimal

  /** A word in capitals, in any case, with blanks around it. */
  ghost predicate Spelled(s: string, word: string) {
    exists a, x, b :: SpelledWith(s, word, a, x, b)
  }

  predicate SpelledWith(s: string, word: string, a: string, x: string, b: string) {
    && Blank(a) && Blank(b) && s == a + x + b && |x| == |word|
    && forall i | 0 <= i < |x| :: x[i] == word[i] || (IsLower(x[i]) && x[i] as int == word[i] as int + 32)
  }

  /** What an entry asks for: TCP when it says nothing. */
  ghost predicate Asks(p: PortSpec, protocol: string) {
    || (protocol == "TCP" && (Blank(p.protocol) || Spelled(p.protocol, "TCP")))
    || (protocol == "UDP" && Spelled(p.protocol, "UDP"))
  }

  lemma UpperOf(x: string, word: string)
    requires word == "TCP" || word == "UDP"
    ensures ToUpper(x) == word <==>
              |x| == 3 && forall i | 0 <= i < 3 :: x[i] == word[i] || (IsLower(x[i]) && x[i] as int == word[i] as int + 32)
  {
    if ToUpper(x) == word {
      forall i | 0 <= i < 3 ensures x[i] == word[i] || (IsLower(x[i]) && x[i] as int == word[i] as int + 32) {
        assert ToUpper(x)[i] == word[i];
      }
    }
  }

  lemma SpelledIsUpper(s: string, word: string)
    requires word == "TCP" || word == "UDP"
    ensures Spelled(s, word) <==> ToUpper(TrimSpace(s)) == word
  {
    hide TrimSpace, ToUpper, Blank;
    if ToUpper(TrimSpace(s)) == word {
      var a, b := TrimParts(s);
      UpperOf(TrimSpace(s), word);
      assert SpelledWith(s, word, a, TrimSpace(s), b);
    }
    if Spelled(s, word) {
      var a, x, b :| SpelledWith(s, word, a, x, b);
      WordIsTrimmed(x, word);
      TrimOf(a, x, b);
      UpperOf(x, word);
    }
  }

  lemma WordIsTrimmed(x: string, word: string)
    requires (word == "TCP" || word == "UDP") && |x| == 3
    requires forall i | 0 <= i < 3 :: x[i] == word[i] || (IsLower(x[i]) && x[i] as int == word[i] as int + 32)
    ensures Trimmed(x)
  {}

  lemma BlankIsEmpty(s: string)
    ensures Blank(s) <==> TrimSpace(s) == ""
  {
    hide IsSpace, TrimSpace;
    if Blank(s) {
      assert s == s + "" + "";
      TrimOf(s, "", "");
    } else {
      var a, b := TrimParts(s);
      assert TrimSpace(s) == "" ==> s == a + b;
    }
  }

  /** The protocol is the one asked for. */
  lemma ProtocolIsAsked(p: PortSpec, protocol: string)
    requires IsProtocol(protocol)
    ensures Asks(p, protocol) <==> ProtocolOf(p) == protocol
  {
    hide TrimSpace, Blank, Spelled;
    BlankIsEmpty(p.protocol);
    SpelledIsUpper(p.protocol, "TCP");
    SpelledIsUpper(p.protocol, "UDP");
    assert TrimSpace(p.protocol) != "" ==> ToUpper(TrimSpace(p.protocol)) != "";
    assert TrimSpace(p.protocol) == "" ==> ToUpper(TrimSpace(p.protocol)) == "";
  }

  /** Another entry has the same port. */
  predicate Shared(all: seq<PortSpec>, i: nat)
    requires i < |all|
  {
    exists j | 0 <= j < |all| && j != i :: all[j].port == all[i].port
  }

  lemma {:induction false} CountIsNone(all: seq<PortSpec>, port: int)
    requires forall j | 0 <= j < |all| :: all[j].port != port
    ensures Count(all, port) == 0
    decreases |all|
  {
    if all != [] { CountIsNone(all[..|all| - 1], port); }
  }

  lemma {:induction false} CountIsOne(all: seq<PortSpec>, i: nat)
    requires i < |all| && forall j | 0 <= j < |all| && j != i :: all[j].port != all[i].port
    ensures Count(all, all[i].port) == 1
    decreases |all|
  {
    var n := |all| - 1;
    if i == n { CountIsNone(all[..n], all[i].port); } else { CountIsOne(all[..n], i); }
  }

  lemma CountIsShared(all: seq<PortSpec>, i: nat)
    requires i < |all|
    ensures Count(all, all[i].port) > 1 <==> Shared(all, i)
  {
    if Shared(all, i) {
      var j :| 0 <= j < |all| && j != i && all[j].port == all[i].port;
      if i < j { CountsTwice(all, i, j); } else { CountsTwice(all, j, i); }
    } else {
      CountIsOne(all, i);
    }
  }

  /** The name of an entry: its own without the blanks around it; or p and the
      port; and the protocol too when another entry has the port. */
  ghost predicate Called(all: seq<PortSpec>, i: nat, protocol: string, name: string)
    requires i < |all| && all[i].port >= 0
  {
    var made := "p" + Decimal.Digits(all[i].port);
    if Blank(all[i].name) then
      name == if !Shared(all, i) then made else if protocol == "TCP" then made + "-tcp" else made + "-udp"
    else name != "" && Trimmed(name) && exists a, b :: Blank(a) && Blank(b) && all[i].name == a + name + b
  }

  lemma NameIsCalled(all: seq<PortSpec>, i: nat, name: string)
    requires i < |all| && all[i].port >= 0 && IsProtocol(ProtocolOf(all[i]))
    ensures Called(all, i, ProtocolOf(all[i]), name) <==> name == NameOf(all, all[i])
  {
    hide TrimSpace, Blank, ProtocolOf, Count, IsSpace, Shared;
    var given := all[i].name;
    BlankIsEmpty(given);
    CountIsShared(all, i);
    assert ToLower("TCP") == "tcp" && ToLower("UDP") == "udp";
    if !Blank(given) {
      if Called(all, i, ProtocolOf(all[i]), name) {
        var a, b :| Blank(a) && Blank(b) && given == a + name + b;
        TrimOf(a, name, b);
      } else {
        var a, b := TrimParts(given);
        assert given == a + TrimSpace(given) + b;
      }
    } else {
      MadeName(all, i);
    }
  }

  lemma MadeName(all: seq<PortSpec>, i: nat)
    requires i < |all| && all[i].port >= 0 && IsProtocol(ProtocolOf(all[i])) && TrimSpace(all[i].name) == ""
    ensures var made := "p" + Decimal.Digits(all[i].port);
      NameOf(all, all[i]) ==
        if !(Count(all, all[i].port) > 1) then made else if ProtocolOf(all[i]) == "TCP" then made + "-tcp" else made + "-udp"
  {
    hide TrimSpace, ProtocolOf, Count;
    assert ToLower("TCP") == "tcp" && ToLower("UDP") == "udp";
  }

  /** What Kubernetes takes for a port's name, letter by letter. */
  predicate Nameable(name: string) {
    && 1 <= |name| <= 15
    && (forall c | c in name :: 'a' <= c <= 'z' || '0' <= c <= '9' || c == '-')
    && name[0] != '-' && name[|name| - 1] != '-' && exists c | c in name :: 'a' <= c <= 'z'
  }

  lemma NameableIsValid(name: string)
    ensures Nameable(name) <==> ValidName(name)
  {
    if ValidName(name) {
      var i :| 0 <= i < |name| && IsLower(name[i]);
      assert name[i] in name;
    }
    if Nameable(name) {
      forall i | 0 <= i < |name| ensures IsAlnum(name[i]) || name[i] == '-' { assert name[i] in name; }
      var c :| c in name && 'a' <= c <= 'z';
      var i :| 0 <= i < |name| && name[i] == c;
    }
  }

  /** The entry that comes of the i-th one. */
  ghost predicate Becomes(all: seq<PortSpec>, i: nat, out: PortSpec)
    requires i < |all| && all[i].port >= 0
  {
    && out.port == all[i].port && Asks(all[i], out.protocol) && Called(all, i, out.protocol, out.name)
    && (out.primary <==> all[i].primary || (i == 0 && forall k | 0 <= k < |all| :: !all[k].primary))
  }

  /** Entries that can stand beside each other. */
  predicate Proper(out: seq<PortSpec>) {
    && (forall i | 0 <= i < |out| :: 1 <= out[i].port <= 65535 && Nameable(out[i].name))
    && (forall i, j | 0 <= i < j < |out| ::
          !(out[i].port == out[j].port && out[i].protocol == out[j].protocol) && out[i].name != out[j].name)
    && forall i, j | 0 <= i < j < |out| :: !(out[i].primary && out[j].primary)
  }

  lemma NormalizedBecomes(all: seq<PortSpec>)
    requires Acceptable(all)
    ensures var out := Normalized(all);
      |out| == |all| && (forall i | 0 <= i < |all| :: all[i].port >= 0 && Becomes(all, i, out[i])) && Proper(out)
  {
    hide NameOf, ProtocolOf, ValidName, Asks, Called, Nameable;
    var out := Normalized(all);
    SanitizedIsSound(all);
    forall i | 0 <= i < |all| ensures all[i].port >= 0 && Becomes(all, i, out[i]) {
      assert Admitted(all, all[i]);
      ProtocolIsAsked(all[i], ProtocolOf(all[i]));
      NameIsCalled(all, i, NameOf(all, all[i]));
    }
    forall i | 0 <= i < |out| ensures 1 <= out[i].port <= 65535 && Nameable(out[i].name) { NameableIsValid(out[i].name); }
  }

  lemma BecomesIsNormalized(all: seq<PortSpec>, out: seq<PortSpec>)
    requires |out| == |all| && (forall i | 0 <= i < |all| :: all[i].port >= 0 && Becomes(all, i, out[i])) && Proper(out)
    ensures Acceptable(all) && out == Normalized(all)
  {
    hide NameOf, ProtocolOf, ValidName, Asks, Called, Nameable;
    forall i | 0 <= i < |all|
      ensures Admitted(all, all[i]) && out[i].protocol == ProtocolOf(all[i]) && out[i].name == NameOf(all, all[i])
    {
      assert Becomes(all, i, out[i]);
      AskedIsProtocol(all[i], out[i].protocol);
      ProtocolIsAsked(all[i], out[i].protocol);
      NameIsCalled(all, i, out[i].name);
      NameableIsValid(out[i].name);
    }
    forall i, j | 0 <= i < j < |all| ensures Pair(all[i]) != Pair(all[j]) && NameOf(all, all[i]) != NameOf(all, all[j]) {
      assert !(out[i].port == out[j].port && out[i].protocol == out[j].protocol) && out[i].name != out[j].name;
    }
    forall i, j | 0 <= i < j < |all| ensures !(all[i].primary && all[j].primary) { assert !(out[i].primary && out[j].primary); }
    forall i | 0 <= i < |all| ensures out[i] == Normalized(all)[i] {
      assert Becomes(all, i, out[i]);
      assert out[i].primary <==> all[i].primary || (i == 0 && !HasPrimary(all));
    }
  }

  lemma AskedIsProtocol(p: PortSpec, protocol: string)
    requires Asks(p, protocol)
    ensures IsProtocol(protocol)
  {}

  /** Told on the text: a list is taken exactly when its entries become entries
      that can stand beside each other, and those are what is given. A protocol is
      TCP or UDP in any case with blanks around it, and a blank one is TCP. */
  lemma SanitizedText(all: seq<PortSpec>, out: seq<PortSpec>)
    ensures Acceptable(all) && out == Normalized(all) <==>
              |out| == |all| && (forall i | 0 <= i < |all| :: all[i].port >= 0 && Becomes(all, i, out[i])) && Proper(out)
  {
    hide Becomes, Proper, Normalized, Acceptable;
    if Acceptable(all) { NormalizedBecomes(all); }
    if |out| == |all| && (forall i | 0 <= i < |all| :: all[i].port >= 0 && Becomes(all, i, out[i])) && Proper(out) {
      BecomesIsNormalized(all, out);
    }
  }
}
