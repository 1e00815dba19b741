/**
 Chat GUIDs, `<service>;<kind>;<identifier>` (chatguid.go). The identifier may itself contain `;`.
 */
module ChatGuid {

  datatype ParseError = NotThreeParts | EmptyService | BadKind | EmptyIdentifier

  datatype ParseResult = Accepted(guid: string) | Rejected(error: ParseError)

  function IndexOf(s: string, c: char): (i: nat)
    requires c in s
    ensures i < |s| && s[i] == c && c !in s[..i]
  {
    if s[0] == c then 0
    else
      assert s == [s[0]] + s[1..];
      var i := 1 + IndexOf(s[1..], c);
      assert s[..i] == [s[0]] + s[1..][..i - 1];
      i
  }

  /** strings.SplitN with ";": at most n parts, the last one unsplit. */
  function SplitN(s: string, n: nat): seq<string>
    requires n >= 1
    decreases n
  {
    if n == 1 || ';' !in s then [s]
    else
      var i := IndexOf(s, ';');
      [s[..i]] + SplitN(s[i + 1..], n - 1)
  }

  /** ParseChatGUID. */
  function Parse(s: string): ParseResult {
    var parts := SplitN(s, 3);
    if |parts| != 3 then Rejected(NotThreeParts)
    else if parts[0] == "" then Rejected(EmptyService)
    else if parts[1] != "-" && parts[1] != "+" then Rejected(BadKind)
    else if parts[2] == "" then Rejected(EmptyIdentifier)
    else Accepted(s)
  }

  predicate IsGroup(s: string) {
    var parts := SplitN(s, 3);
    |parts| == 3 && parts[1] == "+"
  }

  // ----- what the strings are -----

  predicate Decomposes(s: string, service: string, kind: string, identifier: string) {
    ';' !in service && ';' !in kind && s == service + ";" + kind + ";" + identifier
  }

  function Semicolons(s: string): nat {
    if s == [] then 0 else (if s[0] == ';' then 1 else 0) + Semicolons(s[1..])
  }

  lemma {:induction false} InPrefix(s: string, i: nat, k: nat)
    requires k < i <= |s|
    ensures s[k] in s[..i]
  {
    assert s[..i][k] == s[k];
  }

  lemma {:induction false} FirstSemicolon(front: string, rest: string)
    requires ';' !in front
    ensures ';' in front + ";" + rest && IndexOf(front + ";" + rest, ';') == |front|
  {
    var s := front + ";" + rest;
    assert s[|front|] == ';' && s[..|front|] == front;
    var i := IndexOf(s, ';');
    if i < |front| {
      InPrefix(s, |front|, i);
    }
  }

  /** Splitting undoes joining. */
  lemma {:induction false} SplitOfJoin(s: string, service: string, kind: string, identifier: string)
    requires Decomposes(s, service, kind, identifier)
    ensures SplitN(s, 3) == [service, kind, identifier]
  {
    var rest := kind + ";" + identifier;
    assert s == service + ";" + rest;
    FirstSemicolon(service, rest);
    FirstSemicolon(kind, identifier);
    assert s[..|service|] == service && s[|service| + 1..] == rest;
    assert rest[..|kind|] == kind && rest[|kind| + 1..] == identifier;
    assert SplitN(rest, 2) == [kind] + SplitN(identifier, 1);
  }

  lemma {:induction false} SplitOnce(s: string, n: nat)
    requires n >= 2 && ';' in s
    ensures var i := IndexOf(s, ';');
            s == s[..i] + (";" + s[i + 1..]) && SplitN(s, n) == [s[..i]] + SplitN(s[i + 1..], n - 1)
  {
  }

  lemma {:induction false} JoinOrder(a: string, b: string, c: string)
    ensures a + (";" + (b + (";" + c))) == a + ";" + b + ";" + c
  {
  }

  /** Joining undoes splitting. */
  lemma {:induction false} JoinOfSplit(s: string)
    requires |SplitN(s, 3)| == 3
    ensures var p := SplitN(s, 3); Decomposes(s, p[0], p[1], p[2])
  {
    SplitOnce(s, 3);
    var i := IndexOf(s, ';');
    var service, rest := s[..i], s[i + 1..];
    assert |SplitN(rest, 2)| == 2;
    SplitOnce(rest, 2);
    var k := IndexOf(rest, ';');
    var kind, identifier := rest[..k], rest[k + 1..];
    JoinOrder(service, kind, identifier);
    assert SplitN(s, 3) == [service] + ([kind] + [identifier]);
  }

  /** A string is accepted exactly when it reads as service, kind and identifier, and it does so in only one way. */
  lemma {:induction false} AcceptedExactlyWhen(s: string)
    ensures Parse(s).Accepted? <==>
            exists service, kind, identifier :: Decomposes(s, service, kind, identifier)
              && service != "" && identifier != "" && (kind == "-" || kind == "+")
    ensures Parse(s).Accepted? ==> Parse(s).guid == s
  {
    if Parse(s).Accepted? {
      JoinOfSplit(s);
    }
    if service, kind, identifier :| Decomposes(s, service, kind, identifier) && service != "" && identifier != ""
                                    && (kind == "-" || kind == "+") {
      SplitOfJoin(s, service, kind, identifier);
    }
  }

  /** Which error a string that reads as three parts gets: the first part that is wrong. */
  lemma {:induction false} WhichError(s: string, service: string, kind: string, identifier: string)
    requires Decomposes(s, service, kind, identifier)
    ensures Parse(s) == Rejected(EmptyService) <==> service == ""
    ensures Parse(s) == Rejected(BadKind) <==> service != "" && kind != "-" && kind != "+"
    ensures Parse(s) == Rejected(EmptyIdentifier)
            <==> service != "" && (kind == "-" || kind == "+") && identifier == ""
  {
    SplitOfJoin(s, service, kind, identifier);
  }

  /** The reading is unique, and IsGroup tells its kind, whether or not the string is accepted. */
  lemma {:induction false} OneReading(s: string, service: string, kind: string, identifier: string)
    requires Decomposes(s, service, kind, identifier)
    ensures IsGroup(s) <==> kind == "+"
    ensures forall a, b, c :: Decomposes(s, a, b, c) ==> a == service && b == kind && c == identifier
  {
    SplitOfJoin(s, service, kind, identifier);
    forall a, b, c | Decomposes(s, a, b, c)
      ensures a == service && b == kind && c == identifier
    {
      SplitOfJoin(s, a, b, c);
      assert [a, b, c][0] == service && [a, b, c][1] == kind && [a, b, c][2] == identifier;
    }
  }

  lemma {:induction false} SemicolonsNone(s: string)
    ensures Semicolons(s) == 0 <==> ';' !in s
  {
    if s != [] {
      SemicolonsNone(s[1..]);
      assert s == [s[0]] + s[1..];
    }
  }

  lemma {:induction false} SemicolonsAppend(a: string, b: string)
    ensures Semicolons(a + b) == Semicolons(a) + Semicolons(b)
  {
    if a == [] {
      assert a + b == b;
    } else {
      SemicolonsAppend(a[1..], b);
      assert (a + b)[1..] == a[1..] + b;
    }
  }

  /** Taking the part up to the first separator off takes one separator off. */
  lemma {:induction false} SemicolonsSplit(s: string)
    requires ';' in s
    ensures Semicolons(s) == 1 + Semicolons(s[IndexOf(s, ';') + 1..])
  {
    var i := IndexOf(s, ';');
    var rest := s[i + 1..];
    assert s == s[..i] + (";" + rest);
    SemicolonsNone(s[..i]);
    SemicolonsAppend(s[..i], ";" + rest);
    assert (";" + rest)[1..] == rest;
  }

  lemma {:induction false} TwoParts(s: string)
    ensures |SplitN(s, 2)| == if Semicolons(s) == 0 then 1 else 2
  {
    SemicolonsNone(s);
    if ';' in s {
      SplitOnce(s, 2);
    }
  }

  lemma {:induction false} ThreeParts(s: string)
    ensures |SplitN(s, 3)| == if Semicolons(s) < 2 then Semicolons(s) + 1 else 3
  {
    SemicolonsNone(s);
    if ';' in s {
      SplitOnce(s, 3);
      SemicolonsSplit(s);
      TwoParts(s[IndexOf(s, ';') + 1..]);
    }
  }

  /** Which strings fail as not having three parts: those with fewer than two separators. */
  lemma {:induction false} TooFewParts(s: string)
    ensures Parse(s) == Rejected(NotThreeParts) <==> Semicolons(s) < 2
  {
    ThreeParts(s);
  }
}
