/** The domain list and the intervals of config.go. */
module Config {
  import opened Wrappers
  import opened Text

  const ALL_DOMAINS: seq<string> := [
    "pod", "serverless", "billing", "account", "cluster", "template", "network-volume", "registry", "catalog"]

  datatype DomainsError = UnknownDomain(name: string) | NoDomains

  predicate Known(name: string) {
    name in ALL_DOMAINS
  }

  /** The items of a list: its comma-separated parts, trimmed, without the empty ones. */
  function Items(parts: seq<string>): seq<string> {
    if |parts| == 0 then []
    else Items(parts[..|parts| - 1]) + (var p := TrimSpace(parts[|parts| - 1]); if p == "" then [] else [p])
  }

  predicate AllKnown(names: seq<string>) {
    forall i :: 0 <= i < |names| ==> Known(names[i])
  }

  /** The first unknown item decides the error. */
  ghost predicate FirstUnknown(items: seq<string>, name: string) {
    exists i :: 0 <= i < |items| && items[i] == name && !Known(name) && AllKnown(items[..i])
  }

  lemma {:induction false} ItemsPrefix(parts: seq<string>, n: nat)
    requires n <= |parts|
    ensures Items(parts[..n]) <= Items(parts)
    decreases |parts|
  {
    if n < |parts| {
      ItemsPrefix(parts[..|parts| - 1], n);
      assert parts[..|parts| - 1][..n] == parts[..n];
    } else {
      assert parts[..n] == parts;
    }
  }

  /** The lookup table of the known names. */
  method KnownNames() returns (known: map<string, bool>)
    ensures forall name :: name in known <==> Known(name)
  {
    known := map[];
    for i := 0 to |ALL_DOMAINS|
      invariant forall name :: name in known <==> name in ALL_DOMAINS[..i]
    {
      known := known[ALL_DOMAINS[i] := true];
      assert ALL_DOMAINS[..i + 1] == ALL_DOMAINS[..i] + [ALL_DOMAINS[i]];
    }
    assert ALL_DOMAINS[..|ALL_DOMAINS|] == ALL_DOMAINS;
  }

  lemma NextItem(parts: seq<string>, i: nat)
    requires i < |parts|
    ensures var p := TrimSpace(parts[i]);
            Items(parts[..i + 1]) == Items(parts[..i]) + (if p == "" then [] else [p])
    ensures TrimSpace(parts[i]) != "" ==>
              |Items(parts)| > |Items(parts[..i])| && Items(parts)[|Items(parts[..i])|] == TrimSpace(parts[i])
    ensures Items(parts[..i]) <= Items(parts)
  {
    assert parts[..i + 1][..i] == parts[..i];
    ItemsPrefix(parts, i);
    ItemsPrefix(parts, i + 1);
  }

  method ParseDomains(s: string) returns (r: Result<seq<string>, DomainsError>)
    ensures s == "all" ==> r == Success(ALL_DOMAINS)
    ensures s != "all" ==>
              match r
              case Success(names) => names == Items(Split(s)) && names != [] && AllKnown(names)
              case Failure(NoDomains) => Items(Split(s)) == []
              case Failure(UnknownDomain(name)) => FirstUnknown(Items(Split(s)), name)
  {
    if s == "all" {
      return Success(ALL_DOMAINS);
    }
    var known := KnownNames();
    var parts := Split(s);
    var out: seq<string> := [];
    for i := 0 to |parts|
      invariant out == Items(parts[..i]) && AllKnown(out)
    {
      var p := TrimSpace(parts[i]);
      NextItem(parts, i);
      if p == "" {
        continue;
      }
      if p !in known {
        assert Items(parts)[..|out|] == out;
        return Failure(UnknownDomain(p));
      }
      out := out + [p];
    }
    assert parts[..|parts|] == parts;
    if |out| == 0 {
      return Failure(NoDomains);
    }
    return Success(out);
  }

  /** What ParseDomains returns, as a function of the text. */
  function Parsed(s: string): Option<seq<string>> {
    if s == "all" then Some(ALL_DOMAINS)
    else if Items(Split(s)) == [] || !AllKnown(Items(Split(s))) then None
    else Some(Items(Split(s)))
  }

  // ----- the texts a list of names can be written as -----

  /** A part of the text: a name with spaces around it, or nothing but spaces. */
  datatype Piece = Item(left: string, name: string, right: string) | Gap(space: string)

  predicate WellFormed(p: Piece) {
    match p
    case Item(left, name, right) => Blank(left) && Blank(right) && Known(name) && NoComma(left) && NoComma(right)
    case Gap(space) => Blank(space) && NoComma(space)
  }

  function PieceText(p: Piece): string {
    match p
    case Item(left, name, right) => left + name + right
    case Gap(space) => space
  }

  function Texts(pieces: seq<Piece>): seq<string> {
    seq(|pieces|, i requires 0 <= i < |pieces| => PieceText(pieces[i]))
  }

  function Names(pieces: seq<Piece>): seq<string> {
    if |pieces| == 0 then []
    else Names(pieces[..|pieces| - 1]) + (if pieces[|pieces| - 1].Item? then [pieces[|pieces| - 1].name] else [])
  }

  predicate AllWellFormed(pieces: seq<Piece>) {
    |pieces| >= 1 && forall i :: 0 <= i < |pieces| ==> WellFormed(pieces[i])
  }

  lemma KnownIsTight(name: string)
    requires Known(name)
    ensures Tight(name) && NoComma(name) && name != "" && name != "all"
  {
  }

  lemma PieceItem(p: Piece)
    requires WellFormed(p)
    ensures NoComma(PieceText(p))
    ensures TrimSpace(PieceText(p)) == if p.Item? then p.name else ""
  {
    match p
    case Item(left, name, right) =>
      KnownIsTight(name);
      TrimPadded(left, name, right);
    case Gap(space) =>
      TrimPadded(space, "", "");
      assert space + "" + "" == space;
  }

  lemma {:induction false} ItemsOfPieces(pieces: seq<Piece>)
    requires forall i :: 0 <= i < |pieces| ==> WellFormed(pieces[i])
    ensures Items(Texts(pieces)) == Names(pieces) && AllKnown(Names(pieces))
    decreases |pieces|
  {
    if |pieces| > 0 {
      var n := |pieces| - 1;
      ItemsOfPieces(pieces[..n]);
      PieceItem(pieces[n]);
      assert Texts(pieces)[..n] == Texts(pieces[..n]);
      if pieces[n].Item? { KnownIsTight(pieces[n].name); }
    }
  }

  /** Round trip: however a non-empty list of known names is written, with any spaces around the
      names and any number of empty items between them, parsing gives it back in order. */
  lemma RoundTrip(pieces: seq<Piece>)
    requires AllWellFormed(pieces) && Names(pieces) != []
    ensures Parsed(Join(Texts(pieces))) == Some(Names(pieces))
  {
    var s := Join(Texts(pieces));
    forall i | 0 <= i < |pieces| ensures NoComma(Texts(pieces)[i]) {
      PieceItem(pieces[i]);
    }
    SplitJoin(Texts(pieces));
    ItemsOfPieces(pieces);
    if s == "all" {
      AllIsNoItem(s);
    }
  }

  lemma OneItem(s: string)
    requires NoComma(s) && Tight(s) && s != ""
    ensures Items(Split(s)) == [s]
  {
    SplitPlain(s);
    TrimPadded("", s, "");
    assert "" + s + "" == s;
    assert [s][..0] == [];
  }

  lemma AllIsNoItem(s: string)
    requires s == "all"
    ensures Items(Split(s)) == [s] && !Known(s)
  {
    AllIsPlain(s);
    OneItem(s);
  }

  lemma AllIsPlain(s: string)
    requires s == "all"
    ensures NoComma(s) && Tight(s) && s != "" && !Known(s)
  {
    assert |s| == 3 && s[0] == 'a' && s[1] == 'l' && s[2] == 'l';
  }

  /** Any part whose trimmed text is empty or a known name is a piece. */
  lemma PieceOf(text: string) returns (piece: Piece)
    requires NoComma(text) && (TrimSpace(text) == "" || Known(TrimSpace(text)))
    ensures WellFormed(piece) && PieceText(piece) == text
    ensures if TrimSpace(text) == "" then piece.Gap? else piece.Item? && piece.name == TrimSpace(text)
  {
    var left, right := TrimSplits(text);
    var name := TrimSpace(text);
    assert forall i :: 0 <= i < |left| ==> left[i] == text[i];
    assert forall i :: 0 <= i < |right| ==> right[i] == text[|text| - |right| + i];
    if name == "" {
      assert text == left + right;
      piece := Gap(left + right);
    } else {
      piece := Item(left, name, right);
    }
  }

  lemma KnownSoFar(parts: seq<string>, n: nat)
    requires n + 1 == |parts| && AllKnown(Items(parts))
    ensures AllKnown(Items(parts[..n]))
    ensures TrimSpace(parts[n]) == "" || Known(TrimSpace(parts[n]))
    ensures Items(parts) == Items(parts[..n]) + (if TrimSpace(parts[n]) == "" then [] else [TrimSpace(parts[n])])
  {
    NextItem(parts, n);
    assert parts[..n + 1] == parts;
  }

  lemma OneMorePiece(front: seq<Piece>, piece: Piece)
    requires WellFormed(piece) && forall i :: 0 <= i < |front| ==> WellFormed(front[i])
    ensures forall i :: 0 <= i < |front + [piece]| ==> WellFormed((front + [piece])[i])
    ensures Texts(front + [piece]) == Texts(front) + [PieceText(piece)]
    ensures Names(front + [piece]) == Names(front) + (if piece.Item? then [piece.name] else [])
  {
    assert (front + [piece])[..|front|] == front;
  }

  lemma {:induction false} PiecesOf(parts: seq<string>) returns (pieces: seq<Piece>)
    requires forall i :: 0 <= i < |parts| ==> NoComma(parts[i])
    requires AllKnown(Items(parts))
    ensures |pieces| == |parts| && Texts(pieces) == parts && Names(pieces) == Items(parts)
    ensures forall i :: 0 <= i < |pieces| ==> WellFormed(pieces[i])
    decreases |parts|
  {
    if |parts| == 0 {
      pieces := [];
    } else {
      var n := |parts| - 1;
      KnownSoFar(parts, n);
      var front := PiecesOf(parts[..n]);
      var piece := PieceOf(parts[n]);
      pieces := front + [piece];
      OneMorePiece(front, piece);
    }
  }

  /** The accepted texts, exactly: other than "all", a text is accepted as the list `names` if and
      only if it is some writing of that list. */
  lemma AcceptedIff(s: string, names: seq<string>)
    requires s != "all"
    ensures Parsed(s) == Some(names) <==>
            names != [] && exists pieces :: AllWellFormed(pieces) && Join(Texts(pieces)) == s && Names(pieces) == names
  {
    if Parsed(s) == Some(names) {
      JoinSplit(s);
      var pieces := PiecesOf(Split(s));
      assert AllWellFormed(pieces) && Join(Texts(pieces)) == s && Names(pieces) == names;
    }
    if pieces :| AllWellFormed(pieces) && Join(Texts(pieces)) == s && Names(pieces) == names && names != [] {
      RoundTrip(pieces);
    }
  }

  /** An item of the text is a trimmed part that is not empty. */
  lemma {:induction false} ItemOrigin(parts: seq<string>, p: string)
    ensures p in Items(parts) <==> p != "" && exists i :: 0 <= i < |parts| && TrimSpace(parts[i]) == p
    decreases |parts|
  {
    if |parts| > 0 {
      var n := |parts| - 1;
      ItemOrigin(parts[..n], p);
      if i :| 0 <= i < |parts| && TrimSpace(parts[i]) == p && p != "" {
        if i < n { assert parts[..n][i] == parts[i]; }
      }
      if i :| 0 <= i < n && TrimSpace(parts[..n][i]) == p && p != "" {
        assert parts[..n][i] == parts[i];
      }
    }
  }

  lemma UnknownPart(parts: seq<string>)
    ensures !AllKnown(Items(parts)) <==>
            exists i :: 0 <= i < |parts| && TrimSpace(parts[i]) != "" && !Known(TrimSpace(parts[i]))
  {
    var items := Items(parts);
    if !AllKnown(items) {
      var j :| 0 <= j < |items| && !Known(items[j]);
      ItemOrigin(parts, items[j]);
    }
    if i :| 0 <= i < |parts| && TrimSpace(parts[i]) != "" && !Known(TrimSpace(parts[i])) {
      ItemOrigin(parts, TrimSpace(parts[i]));
    }
  }

  lemma NoParts(parts: seq<string>)
    ensures Items(parts) == [] <==> forall i :: 0 <= i < |parts| ==> TrimSpace(parts[i]) == ""
  {
    if Items(parts) != [] {
      ItemOrigin(parts, Items(parts)[0]);
    }
    forall i | 0 <= i < |parts| && TrimSpace(parts[i]) != "" ensures Items(parts) != [] {
      ItemOrigin(parts, TrimSpace(parts[i]));
    }
  }

  /** Rejection, exactly: other than "all", a text is rejected if and only if some trimmed non-empty
      part is unknown or there is none at all. */
  lemma RejectedIff(s: string)
    requires s != "all"
    ensures Parsed(s).None? <==>
            || (exists i :: 0 <= i < |Split(s)| && TrimSpace(Split(s)[i]) != "" && !Known(TrimSpace(Split(s)[i])))
            || (forall i :: 0 <= i < |Split(s)| ==> TrimSpace(Split(s)[i]) == "")
  {
    UnknownPart(Split(s));
    NoParts(Split(s));
  }

  function Plain(names: seq<string>): seq<Piece> {
    seq(|names|, i requires 0 <= i < |names| => Item("", names[i], ""))
  }

  lemma {:induction false} PlainNames(names: seq<string>)
    ensures Names(Plain(names)) == names
    ensures Texts(Plain(names)) == names
    decreases |names|
  {
    if |names| > 0 {
      PlainNames(names[..|names| - 1]);
      assert Plain(names)[..|names| - 1] == Plain(names[..|names| - 1]);
    }
    forall i | 0 <= i < |names| ensures Texts(Plain(names))[i] == names[i] {
      assert "" + names[i] + "" == names[i];
    }
  }

  /** Parsing is idempotent through join: the list printed with commas parses to itself. */
  lemma ParseJoined(s: string)
    requires Parsed(s).Some?
    ensures Parsed(Join(Parsed(s).value)) == Parsed(s)
  {
    var names := Parsed(s).value;
    PlainNames(names);
    RoundTrip(Plain(names));
  }

  /** The known names, one by one, and what "all" stands for. */
  lemma KnownIff(name: string)
    ensures Known(name) <==>
            || name == "pod" || name == "serverless" || name == "billing" || name == "account" || name == "cluster"
            || name == "template" || name == "network-volume" || name == "registry" || name == "catalog"
    ensures Parsed("all") == Some([
              "pod", "serverless", "billing", "account", "cluster",
              "template", "network-volume", "registry", "catalog"])
  {
  }

  /** Blanks, tabs and line ends. */
  predicate PlainSpace(s: string) {
    forall c :: c in s ==> c == ' ' || c == '\t' || c == '\n' || c == '\r'
  }

  lemma PlainSpaceIsBlank(s: string)
    requires PlainSpace(s)
    ensures Blank(s) && NoComma(s)
  {
    forall i | 0 <= i < |s| ensures IsSpace(s[i]) && s[i] != ',' {
      assert s[i] in s;
    }
  }

  /** The names of the list with space around each. */
  function Spaced(lefts: seq<string>, names: seq<string>, rights: seq<string>): seq<string>
    requires |lefts| == |names| == |rights|
  {
    seq(|names|, i requires 0 <= i < |names| => lefts[i] + names[i] + rights[i])
  }

  /** Any known names, separated by commas and surrounded by blanks, tabs and line ends, are accepted
      as that list. */
  lemma SpacedListParses(lefts: seq<string>, names: seq<string>, rights: seq<string>)
    requires |lefts| == |names| == |rights| && |names| > 0 && AllKnown(names)
    requires forall i :: 0 <= i < |names| ==> PlainSpace(lefts[i]) && PlainSpace(rights[i])
    ensures Parsed(Join(Spaced(lefts, names, rights))) == Some(names)
  {
    var pieces := Surrounded(lefts, names, rights);
    SurroundedNames(lefts, names, rights);
    forall i | 0 <= i < |pieces| ensures WellFormed(pieces[i]) {
      PlainSpaceIsBlank(lefts[i]);
      PlainSpaceIsBlank(rights[i]);
    }
    assert Texts(pieces) == Spaced(lefts, names, rights);
    RoundTrip(pieces);
  }

  function Surrounded(lefts: seq<string>, names: seq<string>, rights: seq<string>): seq<Piece>
    requires |lefts| == |names| == |rights|
  {
    seq(|names|, i requires 0 <= i < |names| => Item(lefts[i], names[i], rights[i]))
  }

  lemma {:induction false} SurroundedNames(lefts: seq<string>, names: seq<string>, rights: seq<string>)
    requires |lefts| == |names| == |rights|
    ensures Names(Surrounded(lefts, names, rights)) == names
    decreases |names|
  {
    if |names| > 0 {
      var n := |names| - 1;
      SurroundedNames(lefts[..n], names[..n], rights[..n]);
      assert Surrounded(lefts, names, rights)[..n] == Surrounded(lefts[..n], names[..n], rights[..n]);
    }
  }

  /** For instance. */
  lemma TwoNamesParse()
    ensures Parsed("pod, account") == Some(["pod", "account"])
  {
    var names := ["pod", "account"];
    assert Known(names[0]) && Known(names[1]);
    SpacedListParses(["", " "], names, ["", ""]);
    TwoNamesText(Spaced(["", " "], names, ["", ""]));
  }

  lemma TwoNamesText(parts: seq<string>)
    requires |parts| == 2 && parts[0] == "" + "pod" + "" && parts[1] == " " + "account" + ""
    ensures Join(parts) == "pod, account"
  {
    assert parts[1..] == [parts[1]];
    assert Join(parts) == parts[0] + "," + parts[1];
  }

  // ----- intervals -----

  const MIN_SCRAPE_INTERVAL := 5_000_000_000

  datatype IntervalError = Invalid(flag: string) | BelowMinimum(flag: string)

  /** `duration` is the outcome of time.ParseDuration, in nanoseconds. */
  function ParseInterval(flag: string, duration: Option<int>): (r: Result<int, IntervalError>)
    ensures r.Success? <==> duration.Some? && duration.value >= 5_000_000_000
    ensures r.Success? ==> r.value == duration.value
    ensures r.Failure? ==> (r.error == Invalid(flag) <==> duration.None?)
  {
    match duration
    case None => Failure(Invalid(flag))
    case Some(d) => if d < MIN_SCRAPE_INTERVAL then Failure(BelowMinimum(flag)) else Success(d)
  }
}
