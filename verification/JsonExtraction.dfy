/** Finding the JSON object in a model's reply: a parse of the whole, then every opening brace in turn,
    each up to the brace that balances it. `parse` stands for the JSON parser. */
module JsonExtraction {
  import opened JsonText

  datatype Option<T> = None | Some(value: T)

  datatype Parsed<T> = Malformed | NotAnObject | AnObject(value: T)

  // ---- preparing the reply ----

  predicate IsSpace(c: char) {
    c == ' ' || '\t' <= c <= '\r' || '\U{1c}' <= c <= '\U{1f}'
  }

  function StripStart(t: string): string {
    if t != [] && IsSpace(t[0]) then StripStart(t[1..]) else t
  }

  function StripEnd(t: string): string {
    if t != [] && IsSpace(t[|t| - 1]) then StripEnd(t[..|t| - 1]) else t
  }

  function Strip(t: string): string {
    StripEnd(StripStart(t))
  }

  predicate Fenced(t: string) {
    exists i :: 0 <= i <= |t| && "```" <= t[i..]
  }

  /** `unfence` is what is done to a reply with code fences in it. */
  function Body(text: string, unfence: string -> string): string {
    if Fenced(Strip(text)) then unfence(Strip(text)) else Strip(text)
  }

  lemma {:induction false} StripStartSplits(t: string) returns (space: string)
    ensures t == space + StripStart(t) && forall c :: c in space ==> IsSpace(c)
    ensures StripStart(t) == "" || !IsSpace(StripStart(t)[0])
  {
    space := [];
    if t != [] && IsSpace(t[0]) {
      var rest := StripStartSplits(t[1..]);
      space := [t[0]] + rest;
    }
  }

  lemma {:induction false} StripEndSplits(t: string) returns (space: string)
    ensures t == StripEnd(t) + space && forall c :: c in space ==> IsSpace(c)
    ensures StripEnd(t) == "" || !IsSpace(StripEnd(t)[|StripEnd(t)| - 1])
  {
    space := [];
    if t != [] && IsSpace(t[|t| - 1]) {
      var rest := StripEndSplits(t[..|t| - 1]);
      space := rest + [t[|t| - 1]];
    }
  }

  lemma IsSpaceIff(c: char)
    ensures IsSpace(c) <==> c as int == 32 || 9 <= c as int <= 13 || 28 <= c as int <= 31
  {
  }

  /** Stripping takes away nothing but white space around the text, and all of it. */
  lemma StripSplits(t: string) returns (before: string, after: string)
    ensures t == before + Strip(t) + after && forall c :: c in before || c in after ==> IsSpace(c)
    ensures Strip(t) != "" ==> !IsSpace(Strip(t)[0]) && !IsSpace(Strip(t)[|Strip(t)| - 1])
  {
    before := StripStartSplits(t);
    after := StripEndSplits(StripStart(t));
    assert Strip(t) != "" ==> Strip(t)[0] == StripStart(t)[0];
  }

  lemma FencedIff(t: string)
    ensures Fenced(t) <==> exists before: string, after: string :: t == before + "```" + after
  {
    if i :| 0 <= i <= |t| && "```" <= t[i..] {
      assert t == t[..i] + "```" + t[i + 3..];
    }
    if before: string, after: string :| t == before + "```" + after {
      assert t[|before|..] == "```" + after;
      assert "```" <= t[|before|..];
    }
  }

  lemma {:induction false} StripStartKeeps(pre: string, rest: string)
    requires rest != [] && !IsSpace(rest[0])
    ensures StripStart(pre + rest) == StripStart(pre) + rest
  {
    if pre == [] {
      assert pre + rest == rest;
    } else if IsSpace(pre[0]) {
      assert (pre + rest)[1..] == pre[1..] + rest;
      StripStartKeeps(pre[1..], rest);
    }
  }

  lemma {:induction false} StripEndKeeps(rest: string, post: string)
    requires rest != [] && !IsSpace(rest[|rest| - 1])
    ensures StripEnd(rest + post) == rest + StripEnd(post)
  {
    if post == [] {
      assert rest + post == rest;
    } else if IsSpace(post[|post| - 1]) {
      assert (rest + post)[..|rest + post| - 1] == rest + post[..|post| - 1];
      StripEndKeeps(rest, post[..|post| - 1]);
    }
  }

  lemma {:induction false} StripStartIsPart(t: string)
    ensures forall c :: c in StripStart(t) ==> c in t
  {
    if t != [] && IsSpace(t[0]) {
      StripStartIsPart(t[1..]);
    }
  }

  // ---- what is found ----

  /** `close` is where the brace at `open` is first balanced, braces inside strings not counting. */
  ghost predicate Closes(body: string, open: nat, close: nat) {
    && open <= close < |body| && Run(Outside, body[open..close + 1]).depth == 0
    && forall k :: open < k <= close ==> Run(Outside, body[open..k]).depth > 0
  }

  ghost predicate Yields<T>(body: string, parse: string -> Parsed<T>, open: nat, value: T) {
    && open < |body| && body[open] == '{'
    && exists close :: Closes(body, open, close) && parse(body[open..close + 1]) == AnObject(value)
  }

  ghost predicate NothingAt<T(!new)>(body: string, parse: string -> Parsed<T>, open: nat) {
    forall value: T :: !Yields(body, parse, open, value)
  }

  /** The value at the leftmost opening brace whose balanced span parses to an object. */
  ghost predicate Leftmost<T(!new)>(body: string, parse: string -> Parsed<T>, r: Option<T>) {
    if r.None? then forall open: nat :: NothingAt(body, parse, open)
    else exists open: nat :: Yields(body, parse, open, r.value) && forall o: nat :: o < open ==> NothingAt(body, parse, o)
  }

  ghost predicate Extracts<T(!new)>(text: string, parse: string -> Parsed<T>, unfence: string -> string, r: Option<T>) {
    if text == [] then r.None?
    else
      var body := Body(text, unfence);
      if parse(body).AnObject? then r == Some(parse(body).value) else Leftmost(body, parse, r)
  }

  lemma ClosesOnce(body: string, open: nat, c1: nat, c2: nat)
    requires Closes(body, open, c1) && Closes(body, open, c2)
    ensures c1 == c2
  {
    var d1, d2 := Run(Outside, body[open..c1 + 1]).depth, Run(Outside, body[open..c2 + 1]).depth;
    assert d1 == d2 == 0;
  }

  lemma YieldsParse<T>(body: string, parse: string -> Parsed<T>, open: nat, close: nat, value: T)
    requires Closes(body, open, close) && Yields(body, parse, open, value)
    ensures parse(body[open..close + 1]) == AnObject(value)
  {
    var c :| Closes(body, open, c) && parse(body[open..c + 1]) == AnObject(value);
    ClosesOnce(body, open, close, c);
  }

  lemma YieldsOnce<T>(body: string, parse: string -> Parsed<T>, open: nat, v1: T, v2: T)
    requires Yields(body, parse, open, v1) && Yields(body, parse, open, v2)
    ensures v1 == v2
  {
    var c :| Closes(body, open, c) && parse(body[open..c + 1]) == AnObject(v1);
    YieldsParse(body, parse, open, c, v2);
  }

  lemma FoundIsSome<T(!new)>(body: string, parse: string -> Parsed<T>, r: Option<T>, open: nat, value: T)
    requires Leftmost(body, parse, r) && Yields(body, parse, open, value)
    ensures r.Some?
  {
    var nothing := NothingAt(body, parse, open);
    assert !nothing;
  }

  /** What is found is determined by the reply. */
  lemma LeftmostOnce<T(!new)>(body: string, parse: string -> Parsed<T>, r1: Option<T>, r2: Option<T>)
    requires Leftmost(body, parse, r1) && Leftmost(body, parse, r2)
    ensures r1 == r2
  {
    if r1.Some? {
      var o1: nat :| Yields(body, parse, o1, r1.value) && forall o: nat :: o < o1 ==> NothingAt(body, parse, o);
      FoundIsSome(body, parse, r2, o1, r1.value);
      var o2: nat :| Yields(body, parse, o2, r2.value) && forall o: nat :: o < o2 ==> NothingAt(body, parse, o);
      var nothing1, nothing2 := NothingAt(body, parse, o1), NothingAt(body, parse, o2);
      assert !nothing1 && !nothing2;
      YieldsOnce(body, parse, o1, r1.value, r2.value);
    } else if r2.Some? {
      var o2: nat :| Yields(body, parse, o2, r2.value) && forall o: nat :: o < o2 ==> NothingAt(body, parse, o);
      FoundIsSome(body, parse, r1, o2, r2.value);
    }
  }

  // ---- the program ----

  /** `body.find("{", from)` */
  method FindBrace(body: string, from: nat) returns (at: int)
    requires from <= |body|
    ensures -1 <= at < |body| && (at >= 0 ==> from <= at && body[at] == '{')
    ensures forall k :: from <= k < (if at >= 0 then at else |body|) ==> body[k] != '{'
  {
    at := from;
    while at < |body|
      invariant from <= at <= |body| && forall k :: from <= k < at ==> body[k] != '{'
    {
      if body[at] == '{' { return; }
      at := at + 1;
    }
    at := -1;
  }

  lemma ScanStarts(body: string, open: nat)
    requires open <= |body|
    ensures Run(Outside, body[open..open]) == Outside
  {
  }

  /** Scanning one more character. */
  lemma ScanStep(body: string, open: nat, i: nat)
    requires open <= i < |body|
    ensures Run(Outside, body[open..i + 1]) == Advance(Run(Outside, body[open..i]), body[i])
  {
    assert body[open..i + 1][..i - open] == body[open..i];
  }

  method FindClose(body: string, open: nat) returns (close: int)
    requires open < |body| && body[open] == '{'
    ensures close >= 0 ==> Closes(body, open, close)
    ensures close < 0 ==> forall c: nat :: !Closes(body, open, c)
  {
    hide Run;
    ScanStarts(body, open);
    var depth, inString, escaped := 0, false, false;
    for i := open to |body|
      invariant Scan(depth, inString, escaped) == Run(Outside, body[open..i])
      invariant forall k :: open < k <= i ==> Run(Outside, body[open..k]).depth > 0
    {
      var c := body[i];
      ScanStep(body, open, i);
      assert i > open ==> depth > 0;
      if inString {
        if escaped {
          escaped := false;
        } else if c == '\\' {
          escaped := true;
        } else if c == '"' {
          inString := false;
        }
        continue;
      }
      if c == '"' {
        inString := true;
      } else if c == '{' {
        depth := depth + 1;
      } else if c == '}' {
        depth := depth - 1;
        if depth == 0 { return i; }
      }
    }
    close := -1;
  }

  method ExtractJsonObject<T(!new)>(text: string, parse: string -> Parsed<T>, unfence: string -> string) returns (r: Option<T>)
    ensures Extracts(text, parse, unfence, r)
  {
    if text == [] { return None; }
    var body := Body(text, unfence);
    var whole := parse(body);
    if whole.AnObject? { return Some(whole.value); }
    var open := FindBrace(body, 0);
    while open != -1
      invariant -1 <= open < |body| && (open >= 0 ==> body[open] == '{')
      invariant forall o: nat :: o < (if open >= 0 then open else |body|) ==> NothingAt(body, parse, o)
      decreases if open >= 0 then |body| - open else 0
    {
      var close := FindClose(body, open);
      if close >= 0 {
        var candidate := parse(body[open..close + 1]);
        if candidate.AnObject? {
          assert Yields(body, parse, open, candidate.value);
          return Some(candidate.value);
        }
        OnlyThisClose(body, parse, open, close);
      }
      open := FindBrace(body, open + 1);
    }
    return None;
  }

  lemma OnlyThisClose<T(!new)>(body: string, parse: string -> Parsed<T>, open: nat, close: nat)
    requires Closes(body, open, close) && !parse(body[open..close + 1]).AnObject?
    ensures NothingAt(body, parse, open)
  {
    forall value: T ensures !Yields(body, parse, open, value) {
      if Yields(body, parse, open, value) {
        YieldsParse(body, parse, open, close, value);
      }
    }
  }

  // ---- every JSON object is found ----

  /** The brace that opens a JSON object is balanced by the object's last character, whatever its strings
      contain. */
  lemma ObjectCloses(v: Json, before: string, after: string)
    requires Valid(v) && v.Object?
    ensures Closes(before + Show(v) + after, |before|, |before| + |Show(v)| - 1)
  {
    var inner, text, body := v.gap + ShowMembers(v.members), Show(v), before + Show(v) + after;
    var inside := Advance(Outside, '{');
    ObjectInside(inside, v.gap, v.members);
    assert text == (['{'] + inner) + ['}'];
    RunOne(Outside, '{');
    RunOne(inside, '}');
    RunConcat(Outside, ['{'], inner);
    RunConcat(Outside, ['{'] + inner, ['}']);
    assert body[|before|..|before| + |text|] == text;
    forall k | |before| < k <= |before| + |text| - 1 ensures Run(Outside, body[|before|..k]).depth > 0 {
      var n := k - |before| - 1;
      assert body[|before|..k] == ['{'] + inner[..n];
      RunConcat(Outside, ['{'], inner[..n]);
    }
  }

  /** A JSON object with any prose around it that has no opening brace before it is what is extracted,
      unless the reply as a whole is some other object or has code fences. */
  lemma ObjectInProse<T(!new)>(before: string, v: Json, after: string, parse: string -> Parsed<T>, unfence: string -> string, value: T)
    requires Valid(v) && v.Object? && parse(Show(v)) == AnObject(value)
    requires '{' !in before && !Fenced(Strip(before + Show(v) + after))
    requires var whole := parse(Strip(before + Show(v) + after)); whole.AnObject? ==> whole.value == value
    ensures forall r :: Extracts(before + Show(v) + after, parse, unfence, r) <==> r == Some(value)
  {
    var text, shown := before + Show(v) + after, Show(v);
    assert shown[0] == '{' && shown[|shown| - 1] == '}';
    var lead, trail := StripStart(before), StripEnd(after);
    assert text == before + (shown + after);
    StripStartKeeps(before, shown + after);
    assert lead + (shown + after) == (lead + shown) + after;
    StripEndKeeps(lead + shown, after);
    StripStartIsPart(before);
    var body := lead + shown + trail;
    assert Body(text, unfence) == body;
    ObjectCloses(v, lead, trail);
    assert body[|lead|..|lead| + |shown|] == shown;
    assert Yields(body, parse, |lead|, value);
    forall o: nat | o < |lead| ensures NothingAt(body, parse, o) {
      assert body[o] == lead[o] && lead[o] in lead;
    }
    assert Leftmost(body, parse, Some(value));
    forall r | Leftmost(body, parse, r) ensures r == Some(value) {
      LeftmostOnce(body, parse, r, Some(value));
    }
  }
}
