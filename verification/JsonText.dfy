/** JSON texts, and what a brace counter that knows about strings sees in them. A text is given by its
    concrete syntax, so every spelling RFC 8259 allows (sections 2 to 7: whitespace, numbers, escapes) is
    covered, not only the output of one printer. */
module JsonText {

  // ---- the scanner ----

  datatype Scan = Scan(depth: int, inString: bool, escaped: bool)

  const Outside: Scan := Scan(0, false, false)

  function Advance(s: Scan, c: char): Scan {
    if s.inString then
      if s.escaped then s.(escaped := false)
      else if c == '\\' then s.(escaped := true)
      else if c == '"' then s.(inString := false)
      else s
    else if c == '"' then s.(inString := true)
    else if c == '{' then s.(depth := s.depth + 1)
    else if c == '}' then s.(depth := s.depth - 1)
    else s
  }

  function Run(s: Scan, text: string): Scan {
    if text == [] then s else Advance(Run(s, text[..|text| - 1]), text[|text| - 1])
  }

  lemma {:induction false} RunConcat(s: Scan, a: string, b: string)
    ensures Run(s, a + b) == Run(Run(s, a), b)
  {
    if b == [] {
      assert a + b == a;
    } else {
      assert (a + b)[..|a + b| - 1] == a + b[..|b| - 1];
      RunConcat(s, a, b[..|b| - 1]);
    }
  }

  lemma RunOne(s: Scan, c: char)
    ensures Run(s, [c]) == Advance(s, c)
  {
    assert [c][..0] == [];
  }

  /** No prefix of the text takes the depth below `floor`. */
  ghost predicate StaysAt(s: Scan, text: string, floor: int) {
    forall k :: 0 <= k <= |text| ==> Run(s, text[..k]).depth >= floor
  }

  lemma StaysConcat(s: Scan, a: string, b: string, floor: int)
    requires StaysAt(s, a, floor) && StaysAt(Run(s, a), b, floor)
    ensures StaysAt(s, a + b, floor)
  {
    forall k | 0 <= k <= |a + b| ensures Run(s, (a + b)[..k]).depth >= floor {
      if k <= |a| {
        assert (a + b)[..k] == a[..k];
      } else {
        assert (a + b)[..k] == a + b[..k - |a|];
        RunConcat(s, a, b[..k - |a|]);
      }
    }
  }

  // ---- concrete syntax ----

  /** One step inside a string: an ordinary character, or a backslash and the character it escapes (the
      four digits after `\u` are ordinary characters). */
  datatype Part = Plain(c: char) | Escaped(c: char) {
    predicate Valid() { Plain? ==> c != '"' && c != '\\' }

    function Show(): string { if Plain? then [c] else ['\\', c] }
  }

  /** A character of a number, a literal name, whitespace, or one of the other structural characters. */
  predicate Neutral(c: char) {
    c != '"' && c != '{' && c != '}'
  }

  predicate AllNeutral(text: string) {
    forall i :: 0 <= i < |text| ==> Neutral(text[i])
  }

  /** `Padded` adds whitespace around a value; `gap` is the whitespace of an empty object. A member's
      `colon` is everything between its key and its value. */
  datatype Json =
    | Word(text: string)
    | Text(parts: seq<Part>)
    | Array(items: seq<Json>)
    | Object(gap: string, members: seq<Member>)
    | Padded(before: string, value: Json, after: string)

  datatype Member = Member(before: string, key: seq<Part>, colon: string, value: Json)

  function ShowParts(parts: seq<Part>): string {
    if parts == [] then [] else parts[0].Show() + ShowParts(parts[1..])
  }

  function Quoted(parts: seq<Part>): string {
    ['"'] + ShowParts(parts) + ['"']
  }

  function Show(v: Json): string
    decreases v
  {
    match v
    case Word(text) => text
    case Text(parts) => Quoted(parts)
    case Array(items) => "[" + ShowItems(items) + "]"
    case Object(gap, members) => "{" + gap + ShowMembers(members) + "}"
    case Padded(before, value, after) => before + Show(value) + after
  }

  function ShowItems(items: seq<Json>): string
    decreases items
  {
    if items == [] then []
    else Show(items[0]) + (if |items| > 1 then "," else "") + ShowItems(items[1..])
  }

  function ShowMember(m: Member): string
    decreases m
  {
    m.before + Quoted(m.key) + m.colon + Show(m.value)
  }

  function ShowMembers(members: seq<Member>): string
    decreases members
  {
    if members == [] then []
    else ShowMember(members[0]) + (if |members| > 1 then "," else "") + ShowMembers(members[1..])
  }

  predicate ValidParts(parts: seq<Part>) {
    forall i :: 0 <= i < |parts| ==> parts[i].Valid()
  }

  predicate Valid(v: Json)
    decreases v
  {
    match v
    case Word(text) => AllNeutral(text)
    case Text(parts) => ValidParts(parts)
    case Array(items) => forall x :: x in items ==> Valid(x)
    case Object(gap, members) => AllNeutral(gap) && forall m :: m in members ==> ValidMember(m)
    case Padded(before, value, after) => AllNeutral(before) && AllNeutral(after) && Valid(value)
  }

  predicate ValidMember(m: Member)
    decreases m
  {
    AllNeutral(m.before) && ValidParts(m.key) && AllNeutral(m.colon) && Valid(m.value)
  }

  // ---- scanning a JSON text ----

  /** The scanner comes out of the text as it went in, and on the way never below where it started. */
  ghost predicate Level(s: Scan, text: string) {
    Run(s, text) == s && StaysAt(s, text, s.depth)
  }

  predicate Between(s: Scan) {
    !s.inString && !s.escaped
  }

  lemma LevelConcat(s: Scan, a: string, b: string)
    requires Level(s, a) && Level(s, b)
    ensures Level(s, a + b)
  {
    RunConcat(s, a, b);
    StaysConcat(s, a, b, s.depth);
  }

  lemma {:induction false} NeutralLevel(s: Scan, text: string)
    requires Between(s) && AllNeutral(text)
    ensures Level(s, text)
  {
    if text != [] {
      var init := text[..|text| - 1];
      NeutralLevel(s, init);
      assert text == init + [text[|text| - 1]];
      RunOne(s, text[|text| - 1]);
      NoDip(s, [text[|text| - 1]]);
      LevelConcat(s, init, [text[|text| - 1]]);
    }
  }

  lemma NoDip(s: Scan, text: string)
    requires |text| <= 1 && Run(s, text).depth >= s.depth
    ensures StaysAt(s, text, s.depth)
  {
    assert text[..0] == [] && text[..|text|] == text;
  }

  lemma PartLevel(s: Scan, p: Part)
    requires s.inString && !s.escaped && p.Valid()
    ensures Level(s, p.Show())
  {
    var t := p.Show();
    assert t[..0] == [] && t[..|t|] == t;
    RunOne(s, t[0]);
    assert t[..1] == [t[0]];
    if p.Escaped? {
      assert t == [t[0]] + [t[1]];
      RunConcat(s, [t[0]], [t[1]]);
      RunOne(Advance(s, t[0]), t[1]);
    }
  }

  lemma {:induction false} PartsLevel(s: Scan, parts: seq<Part>)
    requires s.inString && !s.escaped && ValidParts(parts)
    ensures Level(s, ShowParts(parts))
  {
    if parts == [] {
      NoDip(s, []);
    } else {
      PartLevel(s, parts[0]);
      PartsLevel(s, parts[1..]);
      LevelConcat(s, parts[0].Show(), ShowParts(parts[1..]));
    }
  }

  /** An opening character, a level text, a closing character. */
  lemma Enclosed(s: Scan, open: char, text: string, close: char)
    requires var inside := Advance(s, open);
      inside.depth >= s.depth && Level(inside, text) && Advance(inside, close) == s
    ensures Level(s, [open] + text + [close])
  {
    var inside := Advance(s, open);
    RunOne(s, open);
    RunOne(inside, close);
    RunConcat(s, [open], text);
    RunConcat(s, [open] + text, [close]);
    NoDip(s, [open]);
    assert StaysAt(inside, text, s.depth);
    StaysConcat(s, [open], text, s.depth);
    assert [close][..0] == [] && [close][..1] == [close];
    assert StaysAt(inside, [close], s.depth);
    StaysConcat(s, [open] + text, [close], s.depth);
  }

  lemma QuotedLevel(s: Scan, parts: seq<Part>)
    requires Between(s) && ValidParts(parts)
    ensures Level(s, Quoted(parts))
  {
    PartsLevel(Advance(s, '"'), parts);
    Enclosed(s, '"', ShowParts(parts), '"');
  }

  lemma {:induction false} ValueLevel(s: Scan, v: Json)
    requires Between(s) && Valid(v)
    ensures Level(s, Show(v))
    decreases v, 1
  {
    hide Run, Level;
    match v {
      case Word(text) => NeutralLevel(s, text);
      case Text(parts) => QuotedLevel(s, parts);
      case Array(items) =>
        ItemsLevel(Advance(s, '['), items);
        Enclosed(s, '[', ShowItems(items), ']');
      case Object(gap, members) =>
        ObjectInside(Advance(s, '{'), gap, members);
        Enclosed(s, '{', gap + ShowMembers(members), '}');
        assert Show(v) == ['{'] + (gap + ShowMembers(members)) + ['}'];
      case Padded(before, value, after) =>
        NeutralLevel(s, before);
        ValueLevel(s, value);
        NeutralLevel(s, after);
        LevelConcat(s, before, Show(value));
        LevelConcat(s, before + Show(value), after);
    }
  }

  lemma {:induction false} ItemsLevel(s: Scan, items: seq<Json>)
    requires Between(s) && forall x :: x in items ==> Valid(x)
    ensures Level(s, ShowItems(items))
    decreases items, 0
  {
    hide Run, Level;
    if items == [] {
      NeutralLevel(s, []);
    } else {
      var comma := if |items| > 1 then "," else "";
      ValueLevel(s, items[0]);
      NeutralLevel(s, comma);
      ItemsLevel(s, items[1..]);
      LevelConcat(s, Show(items[0]), comma);
      LevelConcat(s, Show(items[0]) + comma, ShowItems(items[1..]));
    }
  }

  lemma {:induction false} MemberLevel(s: Scan, m: Member)
    requires Between(s) && ValidMember(m)
    ensures Level(s, ShowMember(m))
    decreases m, 0
  {
    hide Run, Level;
    NeutralLevel(s, m.before);
    QuotedLevel(s, m.key);
    NeutralLevel(s, m.colon);
    ValueLevel(s, m.value);
    LevelConcat(s, m.before, Quoted(m.key));
    LevelConcat(s, m.before + Quoted(m.key), m.colon);
    LevelConcat(s, m.before + Quoted(m.key) + m.colon, Show(m.value));
  }

  lemma {:induction false} MembersLevel(s: Scan, members: seq<Member>)
    requires Between(s) && forall m :: m in members ==> ValidMember(m)
    ensures Level(s, ShowMembers(members))
    decreases members, 0
  {
    hide Run, Level;
    if members == [] {
      NeutralLevel(s, []);
    } else {
      var comma := if |members| > 1 then "," else "";
      MemberLevel(s, members[0]);
      NeutralLevel(s, comma);
      MembersLevel(s, members[1..]);
      LevelConcat(s, ShowMember(members[0]), comma);
      LevelConcat(s, ShowMember(members[0]) + comma, ShowMembers(members[1..]));
    }
  }

  lemma ObjectInside(s: Scan, gap: string, members: seq<Member>)
    requires Between(s) && AllNeutral(gap) && forall m :: m in members ==> ValidMember(m)
    ensures Level(s, gap + ShowMembers(members))
    decreases members, 1
  {
    hide Run, Level;
    NeutralLevel(s, gap);
    MembersLevel(s, members);
    LevelConcat(s, gap, ShowMembers(members));
  }
}
