/** JSON Pointer resolution, and its round trip with the pointers of RFC 6901. */
module JsonPointer {
  import opened Json
  import opened Decimal
  import opened Outcomes

  datatype PointerError = Unsupported | MissingKey | NotAnIndex | NotANumber | OutOfRange | NotAContainer

  datatype Resolved = Found(node: Json) | Lost(error: PointerError)

  /** What Unicode says of a character beyond ASCII: whether `isdigit` accepts it, and the digit `int` reads it as, if any. */
  datatype Unicode = Unicode(isDigit: char -> bool, decimal: char -> Option<nat>)

  predicate DigitChar(u: Unicode, c: char)
  {
    IsDigit(c) || (c > '\U{7F}' && u.isDigit(c))
  }

  /** `str.isdigit` */
  predicate IsDigitString(u: Unicode, s: string)
  {
    s != "" && forall i | 0 <= i < |s| :: DigitChar(u, s[i])
  }

  function DigitValue(u: Unicode, c: char): Option<nat>
  {
    if IsDigit(c) then Some(ValueOf(c)) else if c > '\U{7F}' then u.decimal(c) else None
  }

  /** `int(s)` of a digit string; a superscript, say, is a digit that it cannot read. */
  function ReadInt(u: Unicode, s: string): Option<nat>
  {
    if s == "" then Some(0) else
      var high, low := ReadInt(u, s[..|s| - 1]), DigitValue(u, s[|s| - 1]);
      if high.Some? && low.Some? then Some(10 * high.value + low.value) else None
  }

  lemma {:induction false} ReadDigits(u: Unicode, s: string)
    requires forall i | 0 <= i < |s| :: IsDigit(s[i])
    ensures ReadInt(u, s) == Some(Parse(s))
  {
    if s != "" {
      ReadDigits(u, s[..|s| - 1]);
    }
  }

  /** Python's `s.split("/")`. */
  function Split(s: string): (parts: seq<string>)
    ensures parts != []
  {
    if s == "" then [""]
    else
      var rest := Split(s[1..]);
      if s[0] == '/' then [""] + rest else [[s[0]] + rest[0]] + rest[1..]
  }

  /** Python's `s.replace("~" + digit, with)`: left to right, without rescanning. */
  function Replace(s: string, digit: char, with: char): string
  {
    if |s| < 2 then s
    else if s[0] == '~' && s[1] == digit then [with] + Replace(s[2..], digit, with)
    else [s[0]] + Replace(s[1..], digit, with)
  }

  /** `_decode_pointer_token` */
  function Decode(token: string): string
  {
    Replace(Replace(token, '1', '/'), '0', '~')
  }

  /** One step of the walk. */
  function Enter(u: Unicode, node: Json, token: string): Resolved
  {
    match node
    case Obj(fields) => if token in fields then Found(fields[token]) else Lost(MissingKey)
    case Arr(items) =>
      var index := ReadInt(u, token);
      if !IsDigitString(u, token) then Lost(NotAnIndex)
      else if index.None? then Lost(NotANumber)
      else if index.value >= |items| then Lost(OutOfRange)
      else Found(items[index.value])
    case _ => Lost(NotAContainer)
  }

  function Walk(u: Unicode, node: Json, tokens: seq<string>): Resolved
    decreases |tokens|
  {
    if tokens == [] then Found(node) else
      var next := Enter(u, node, Decode(tokens[0]));
      if next.Lost? then next else Walk(u, next.node, tokens[1..])
  }

  /** What a pointer resolves to: nothing but the whole document, or a walk along its tokens. */
  function Resolution(u: Unicode, doc: Json, pointer: string): Resolved
  {
    if pointer == "" || pointer == "#" then Found(doc)
    else if |pointer| < 2 || pointer[..2] != "#/" then Lost(Unsupported)
    else Walk(u, doc, Split(pointer[2..]))
  }

  /** The loop of `_resolve_pointer`; every way of being lost is an exception of its own. */
  method ResolvePointer(u: Unicode, doc: Json, pointer: string) returns (r: Resolved)
    ensures r == Resolution(u, doc, pointer)
    ensures |pointer| < 2 ==> r == if pointer == "" || pointer == "#" then Found(doc) else Lost(Unsupported)
  {
    if pointer == "" || pointer == "#" {
      return Found(doc);
    }
    if |pointer| < 2 || pointer[..2] != "#/" {
      return Lost(Unsupported);
    }
    var tokens := Split(pointer[2..]);
    var current := doc;
    for i := 0 to |tokens|
      invariant Walk(u, current, tokens[i..]) == Walk(u, doc, tokens)
    {
      var token := Decode(tokens[i]);
      assert tokens[i..][1..] == tokens[i + 1..];
      if current.Obj? {
        if token !in current.fields {
          return Lost(MissingKey);
        }
        current := current.fields[token];
        continue;
      }
      if current.Arr? {
        if !IsDigitString(u, token) {
          return Lost(NotAnIndex);
        }
        var index := ReadInt(u, token);
        if index.None? {
          return Lost(NotANumber);
        }
        if index.value >= |current.items| {
          return Lost(OutOfRange);
        }
        current := current.items[index.value];
        continue;
      }
      return Lost(NotAContainer);
    }
    r := Found(current);
  }

  /** A place in a document. */
  datatype Place = Key(key: string) | Index(index: nat)

  function Child(node: Json, p: Place): Option<Json>
  {
    match p
    case Key(k) => if node.Obj? && k in node.fields then Some(node.fields[k]) else None
    case Index(i) => if node.Arr? && i < |node.items| then Some(node.items[i]) else None
  }

  function NodeAt(node: Json, path: seq<Place>): Option<Json>
    decreases |path|
  {
    if path == [] then Some(node) else
      var next := Child(node, path[0]);
      if next.None? then None else NodeAt(next.value, path[1..])
  }

  /** Section 3 of RFC 6901: `~` becomes `~0` and `/` becomes `~1`. */
  function Escape(k: string): string
  {
    if k == "" then "" else (if k[0] == '~' then "~0" else if k[0] == '/' then "~1" else [k[0]]) + Escape(k[1..])
  }

  function Token(p: Place): string
  {
    match p
    case Key(k) => Escape(k)
    case Index(i) => Digits(i)
  }

  /** The tokens of a non-empty path, joined with '/'. */
  function Joined(path: seq<Place>): string
    requires path != []
  {
    if |path| == 1 then Token(path[0]) else Token(path[0]) + "/" + Joined(path[1..])
  }

  /** The pointer of a path in URI fragment form (section 6 of RFC 6901), without percent encoding. */
  function Pointer(path: seq<Place>): string
  {
    if path == [] then "#" else "#/" + Joined(path)
  }

  /** The key with only its '~' still escaped. */
  function HalfEscape(k: string): string
  {
    if k == "" then "" else (if k[0] == '~' then "~0" else [k[0]]) + HalfEscape(k[1..])
  }

  lemma {:induction false} FirstPass(k: string)
    ensures Replace(Escape(k), '1', '/') == HalfEscape(k)
  {
    if k != "" {
      FirstPass(k[1..]);
      var rest := Escape(k[1..]);
      if k[0] == '~' {
        assert ("~0" + rest)[1..] == "0" + rest && ("0" + rest)[1..] == rest;
        assert Replace("0" + rest, '1', '/') == "0" + Replace(rest, '1', '/');
      } else if k[0] == '/' {
        assert ("~1" + rest)[2..] == rest;
      } else {
        assert ([k[0]] + rest)[1..] == rest;
      }
    }
  }

  lemma {:induction false} SecondPass(k: string)
    ensures Replace(HalfEscape(k), '0', '~') == k
  {
    if k != "" {
      SecondPass(k[1..]);
      var rest := HalfEscape(k[1..]);
      if k[0] == '~' {
        assert ("~0" + rest)[2..] == rest;
      } else {
        assert ([k[0]] + rest)[1..] == rest;
      }
    }
  }

  /** Decoding in the order of section 4 of RFC 6901 undoes the escape, for every key. */
  lemma DecodeEscape(k: string)
    ensures Decode(Escape(k)) == k
  {
    FirstPass(k);
    SecondPass(k);
  }

  lemma {:induction false} NothingToReplace(s: string, digit: char, with: char)
    requires '~' !in s
    ensures Replace(s, digit, with) == s
  {
    if |s| >= 2 {
      NothingToReplace(s[1..], digit, with);
    }
  }

  lemma DecodeDigits(s: string)
    requires AllDigits(s)
    ensures Decode(s) == s
  {
    NothingToReplace(s, '1', '/');
    NothingToReplace(s, '0', '~');
  }

  lemma {:induction false} EscapeHasNoSlash(k: string)
    ensures '/' !in Escape(k)
  {
    if k != "" {
      EscapeHasNoSlash(k[1..]);
    }
  }

  lemma TokenFacts(p: Place)
    ensures '/' !in Token(p)
    ensures Decode(Token(p)) == match p case Key(k) => k case Index(i) => Digits(i)
  {
    match p
    case Key(k) =>
      EscapeHasNoSlash(k);
      DecodeEscape(k);
    case Index(i) =>
      ParseOfDigits(i);
      DecodeDigits(Digits(i));
  }

  lemma {:induction false} SplitFirst(token: string, rest: string)
    requires '/' !in token
    ensures Split(token) == [token]
    ensures Split(token + "/" + rest) == [token] + Split(rest)
  {
    if token == "" {
      assert token + "/" + rest == "/" + rest;
      assert ("/" + rest)[1..] == rest;
    } else {
      SplitFirst(token[1..], rest);
      assert (token + "/" + rest)[1..] == token[1..] + "/" + rest;
      assert [token[0]] + token[1..] == token;
    }
  }

  /** Splitting a joined path gives back its tokens. */
  lemma {:induction false} SplitJoined(path: seq<Place>)
    requires path != []
    ensures |Split(Joined(path))| == |path|
    ensures Split(Joined(path))[0] == Token(path[0])
    ensures |path| > 1 ==> Split(Joined(path))[1..] == Split(Joined(path[1..]))
  {
    TokenFacts(path[0]);
    if |path| == 1 {
      SplitFirst(Token(path[0]), "");
    } else {
      SplitJoined(path[1..]);
      SplitFirst(Token(path[0]), Joined(path[1..]));
      assert ([Token(path[0])] + Split(Joined(path[1..])))[1..] == Split(Joined(path[1..]));
    }
  }

  lemma EnterIsChild(u: Unicode, node: Json, p: Place)
    requires Child(node, p).Some?
    ensures Enter(u, node, Decode(Token(p))) == Found(Child(node, p).value)
  {
    TokenFacts(p);
    if p.Index? {
      ParseOfDigits(p.index);
      ReadDigits(u, Digits(p.index));
    }
  }

  lemma {:induction false} WalkAlongPath(u: Unicode, node: Json, path: seq<Place>)
    requires path != [] && NodeAt(node, path).Some?
    ensures Walk(u, node, Split(Joined(path))) == Found(NodeAt(node, path).value)
    decreases |path|
  {
    SplitJoined(path);
    EnterIsChild(u, node, path[0]);
    var tokens := Split(Joined(path));
    if |path| == 1 {
      assert tokens[1..] == [];
    } else {
      WalkAlongPath(u, Child(node, path[0]).value, path[1..]);
    }
  }

  /** Resolving the pointer of any existing path finds exactly the node at that path. */
  lemma PointerFindsNode(u: Unicode, doc: Json, path: seq<Place>)
    requires NodeAt(doc, path).Some?
    ensures Resolution(u, doc, Pointer(path)) == Found(NodeAt(doc, path).value)
  {
    if path != [] {
      WalkAlongPath(u, doc, path);
      assert Pointer(path)[2..] == Joined(path);
    }
  }

  /** The tokens name the places of the path: a key as it is decoded, an index as its digits are read. */
  ghost predicate Denotes(u: Unicode, tokens: seq<string>, path: seq<Place>)
  {
    && |path| == |tokens|
    && forall i | 0 <= i < |path| ::
         match path[i]
         case Key(k) => Decode(tokens[i]) == k
         case Index(n) => IsDigitString(u, Decode(tokens[i])) && ReadInt(u, Decode(tokens[i])) == Some(n)
  }

  lemma {:induction false} WalkFollowsPath(u: Unicode, node: Json, tokens: seq<string>, path: seq<Place>)
    requires Denotes(u, tokens, path) && NodeAt(node, path).Some?
    ensures Walk(u, node, tokens) == Found(NodeAt(node, path).value)
    decreases |tokens|
  {
    if tokens != [] {
      assert Enter(u, node, Decode(tokens[0])) == Found(Child(node, path[0]).value);
      WalkFollowsPath(u, Child(node, path[0]).value, tokens[1..], path[1..]);
    }
  }

  lemma {:induction false} WalkStaysInside(u: Unicode, node: Json, tokens: seq<string>)
    requires Walk(u, node, tokens).Found?
    ensures exists path :: Denotes(u, tokens, path) && NodeAt(node, path) == Some(Walk(u, node, tokens).node)
    decreases |tokens|
  {
    if tokens == [] {
      assert Denotes(u, tokens, []) && NodeAt(node, []) == Some(node);
    } else {
      var token := Decode(tokens[0]);
      var next := Enter(u, node, token).node;
      WalkStaysInside(u, next, tokens[1..]);
      var rest :| Denotes(u, tokens[1..], rest) && NodeAt(next, rest) == Some(Walk(u, next, tokens[1..]).node);
      var place := if node.Obj? then Key(token) else Index(ReadInt(u, token).value);
      var path := [place] + rest;
      assert path[1..] == rest;
      DenotesOneMore(u, tokens, place, rest);
      assert NodeAt(node, path) == Some(Walk(u, node, tokens).node);
    }
  }

  lemma DenotesOneMore(u: Unicode, tokens: seq<string>, place: Place, rest: seq<Place>)
    requires tokens != [] && Denotes(u, tokens[1..], rest)
    requires match place
             case Key(k) => Decode(tokens[0]) == k
             case Index(n) => IsDigitString(u, Decode(tokens[0])) && ReadInt(u, Decode(tokens[0])) == Some(n)
    ensures Denotes(u, tokens, [place] + rest)
  {
    forall i | 1 <= i < |tokens|
      ensures ([place] + rest)[i] == rest[i - 1] && tokens[i] == tokens[1..][i - 1]
    {
    }
  }

  /** Nothing else is ever found: a pointer resolves to a node if and only if its tokens name a path of the document to that node. */
  lemma FoundIffDenoted(u: Unicode, doc: Json, pointer: string, node: Json)
    requires |pointer| >= 2
    ensures Resolution(u, doc, pointer) == Found(node) <==>
              pointer[..2] == "#/" && exists path :: Denotes(u, Split(pointer[2..]), path) && NodeAt(doc, path) == Some(node)
  {
    if pointer[..2] == "#/" {
      var tokens := Split(pointer[2..]);
      if Walk(u, doc, tokens).Found? {
        WalkStaysInside(u, doc, tokens);
      }
      if path :| Denotes(u, tokens, path) && NodeAt(doc, path) == Some(node) {
        WalkFollowsPath(u, doc, tokens, path);
      }
    }
  }

  /** Why the walk ends at node `n` with the token before it. */
  predicate LeavesAt(u: Unicode, n: Json, token: string, error: PointerError)
  {
    match error
    case Unsupported => false
    case MissingKey => n.Obj? && token !in n.fields
    case NotAnIndex => n.Arr? && !IsDigitString(u, token)
    case NotANumber => n.Arr? && IsDigitString(u, token) && ReadInt(u, token) == None
    case OutOfRange => n.Arr? && IsDigitString(u, token) && ReadInt(u, token).Some? && ReadInt(u, token).value >= |n.items|
    case NotAContainer => !n.Obj? && !n.Arr?
  }

  /** The first tokens name `path`, and the next one leads nowhere from there. */
  ghost predicate LostAt(u: Unicode, node: Json, tokens: seq<string>, path: seq<Place>, error: PointerError)
  {
    && |path| < |tokens| && Denotes(u, tokens[..|path|], path)
    && NodeAt(node, path).Some? && LeavesAt(u, NodeAt(node, path).value, Decode(tokens[|path|]), error)
  }

  lemma LostFurtherDown(u: Unicode, node: Json, tokens: seq<string>, place: Place, rest: seq<Place>, error: PointerError)
    requires tokens != [] && Denotes(u, tokens[..1], [place]) && Child(node, place).Some?
    requires LostAt(u, Child(node, place).value, tokens[1..], rest, error)
    ensures LostAt(u, node, tokens, [place] + rest, error)
  {
    var path := [place] + rest;
    assert path[1..] == rest && tokens[..|path|][1..] == tokens[1..][..|rest|];
    assert [place][0] == place;
    DenotesOneMore(u, tokens[..|path|], place, rest);
  }

  /** A walk is lost at a node its first tokens name, for a reason found there. */
  lemma {:induction false} LostWhereTokensLeave(u: Unicode, node: Json, tokens: seq<string>)
    requires Walk(u, node, tokens).Lost?
    ensures exists path :: LostAt(u, node, tokens, path, Walk(u, node, tokens).error)
    decreases |tokens|
  {
    var token := Decode(tokens[0]);
    var entered := Enter(u, node, token);
    if entered.Lost? {
      assert LostAt(u, node, tokens, [], entered.error);
    } else {
      LostWhereTokensLeave(u, entered.node, tokens[1..]);
      var rest :| LostAt(u, entered.node, tokens[1..], rest, Walk(u, entered.node, tokens[1..]).error);
      LostFurtherDown(u, node, tokens, if node.Obj? then Key(token) else Index(ReadInt(u, token).value), rest, Walk(u, node, tokens).error);
    }
  }

  lemma SamePlace(node: Json, p: Place, q: Place)
    requires Child(node, p).Some? && Child(node, q).Some? && Token(p) == Token(q)
    ensures p == q
  {
    TokenFacts(p);
    TokenFacts(q);
    if p.Index? {
      DigitsInjective(p.index, q.index);
    }
  }

  /** Within a document, no two paths share a pointer. */
  lemma {:induction false} PointersAreDistinct(doc: Json, p: seq<Place>, q: seq<Place>)
    requires NodeAt(doc, p).Some? && NodeAt(doc, q).Some? && Pointer(p) == Pointer(q)
    ensures p == q
  {
    if p != [] && q != [] {
      assert Pointer(p)[2..] == Joined(p) && Pointer(q)[2..] == Joined(q);
      JoinedAreDistinct(doc, p, q);
    }
  }

  lemma {:induction false} JoinedAreDistinct(node: Json, p: seq<Place>, q: seq<Place>)
    requires p != [] && q != [] && NodeAt(node, p).Some? && NodeAt(node, q).Some? && Joined(p) == Joined(q)
    ensures p == q
    decreases |p|
  {
    SplitJoined(p);
    SplitJoined(q);
    SamePlace(node, p[0], q[0]);
    if |p| > 1 {
      SamePartsSameJoin(p[1..], q[1..]);
      JoinedAreDistinct(Child(node, p[0]).value, p[1..], q[1..]);
    }
    assert p == [p[0]] + p[1..] && q == [q[0]] + q[1..];
  }

  lemma {:induction false} SamePartsSameJoin(p: seq<Place>, q: seq<Place>)
    requires p != [] && q != [] && Split(Joined(p)) == Split(Joined(q))
    ensures Joined(p) == Joined(q)
    decreases |p|
  {
    SplitJoined(p);
    SplitJoined(q);
    if |p| > 1 {
      SamePartsSameJoin(p[1..], q[1..]);
    }
  }
}
