/** The conversions between the admin form's text inputs and the stored
    developer record (src/pages/Admin.jsx): the skills list edited as one
    comma-separated string, and the integer columns typed as text. */
module FormCodec {
  import opened Common
  import opened Text

  /** A skill as the stored list holds it: non-empty, trimmed, and free of the
      comma that separates skills in the edit form. */
  predicate IsSkill(x: string) {
    x != "" && IsTrimmed(x) && ',' !in x
  }

  predicate AllSkills(xs: seq<string>) {
    forall k :: 0 <= k < |xs| ==> IsSkill(xs[k])
  }

  /** `.map(skill => skill.trim())` */
  function TrimEach(pieces: seq<string>): (r: seq<string>)
    ensures |r| == |pieces|
  {
    if |pieces| == 0 then [] else [Trim(pieces[0])] + TrimEach(pieces[1..])
  }

  /** Trimming never brings in a character the pieces did not contain. */
  lemma {:induction false} TrimEachAt(pieces: seq<string>, k: nat)
    requires k < |pieces|
    ensures TrimEach(pieces)[k] == Trim(pieces[k])
  {
    if k > 0 {
      TrimEachAt(pieces[1..], k - 1);
    }
  }

  /** Trimmed pieces are trimmed, and trimming brings in no comma. */
  lemma TrimEachKeepsSkills(pieces: seq<string>)
    requires forall k :: 0 <= k < |pieces| ==> ',' !in pieces[k]
    ensures forall k :: 0 <= k < |pieces| ==> IsTrimmed(TrimEach(pieces)[k]) && ',' !in TrimEach(pieces)[k]
  {
    forall k | 0 <= k < |pieces|
      ensures IsTrimmed(TrimEach(pieces)[k]) && ',' !in TrimEach(pieces)[k]
    {
      TrimEachAt(pieces, k);
      TrimKeepsAbsent(pieces[k], ',');
    }
  }

  /** `.filter(skill => skill.length > 0)` */
  function DropEmpty(pieces: seq<string>): (r: seq<string>)
    ensures |r| <= |pieces|
    ensures forall k :: 0 <= k < |r| ==> r[k] != ""
  {
    if |pieces| == 0 then []
    else (if pieces[0] == "" then [] else [pieces[0]]) + DropEmpty(pieces[1..])
  }

  /** Filtering works piece by piece, so the kept pieces stay in their order. */
  lemma {:induction false} DropEmptyConcat(a: seq<string>, b: seq<string>)
    ensures DropEmpty(a + b) == DropEmpty(a) + DropEmpty(b)
  {
    if |a| > 0 {
      assert (a + b)[0] == a[0];
      assert (a + b)[1..] == a[1..] + b;
      DropEmptyConcat(a[1..], b);
    } else {
      assert a + b == b;
    }
  }

  /** The filter keeps only pieces the input had: trimmed, comma-free pieces stay so. */
  lemma {:induction false} DropEmptyKeepsSkills(pieces: seq<string>)
    requires forall k :: 0 <= k < |pieces| ==> IsTrimmed(pieces[k]) && ',' !in pieces[k]
    ensures AllSkills(DropEmpty(pieces))
  {
    if |pieces| > 0 {
      DropEmptyKeepsSkills(pieces[1..]);
    }
  }

  /** A list without empty pieces passes the filter unchanged. */
  lemma {:induction false} DropEmptyOfNonEmpty(xs: seq<string>)
    requires forall k :: 0 <= k < |xs| ==> xs[k] != ""
    ensures DropEmpty(xs) == xs
  {
    if |xs| > 0 {
      DropEmptyOfNonEmpty(xs[1..]);
    }
  }

  /** The skills list that `handleSubmit` stores for the form's skills text:
      split at every comma, trim each piece, drop the empty ones. */
  function ParseSkills(text: string): (skills: seq<string>)
    ensures AllSkills(skills)
  {
    var pieces := Split(text, ',');
    var trimmed := TrimEach(pieces);
    TrimEachKeepsSkills(pieces);
    DropEmptyKeepsSkills(trimmed);
    DropEmpty(trimmed)
  }

  /** `.map(skill => skill.trim())` works piece by piece. */
  lemma {:induction false} TrimEachConcat(a: seq<string>, b: seq<string>)
    ensures TrimEach(a + b) == TrimEach(a) + TrimEach(b)
  {
    if |a| > 0 {
      TrimEachConcat(a[1..], b);
      assert (a + b)[0] == a[0];
      assert (a + b)[1..] == a[1..] + b;
      assert TrimEach(a + b) == [Trim(a[0])] + TrimEach(a[1..] + b);
    } else {
      assert a + b == b;
    }
  }

  /** Text without a comma is one piece: its trimmed form, or nothing when
      it is only white space. */
  lemma ParseOne(a: string)
    requires ',' !in a
    ensures ParseSkills(a) == (if Trim(a) == "" then [] else [Trim(a)])
  {
    assert Split(a, ',') == [a];
  }

  /** The first comma ends the first piece: parsing keeps that piece,
      trimmed, unless it is blank, and puts it in front of the skills parsed
      from the rest. With `ParseOne` this fixes the result for every text,
      so the kept pieces keep their order and their case. */
  lemma ParseCons(a: string, b: string)
    requires ',' !in a
    ensures ParseSkills(a + [','] + b) == (if Trim(a) == "" then [] else [Trim(a)]) + ParseSkills(b)
  {
    SplitAtSeparator(a, ',', b);
    var rest := Split(b, ',');
    TrimEachConcat([a], rest);
    assert TrimEach([a]) == [Trim(a)];
    DropEmptyConcat([Trim(a)], TrimEach(rest));
    assert DropEmpty([Trim(a)]) == (if Trim(a) == "" then [] else [Trim(a)]);
  }

  /** The skills text `handleEdit` puts in the form: the list joined with ", ". */
  function JoinSkills(skills: seq<string>): (text: string)
    ensures |skills| > 0 ==> StartsWith(text, skills[0])
  {
    Join(skills, ", ")
  }

  /** Every skill but the first, preceded by the space of the ", " delimiter. */
  function SpaceEach(xs: seq<string>): (r: seq<string>)
    ensures |r| == |xs|
  {
    if |xs| == 0 then [] else [" " + xs[0]] + SpaceEach(xs[1..])
  }

  lemma {:induction false} SpaceBeforeJoin(ys: seq<string>)
    requires |ys| > 0
    ensures " " + Join(ys, ", ") == Join(SpaceEach(ys), ",")
  {
    if |ys| > 1 {
      SpaceBeforeJoin(ys[1..]);
      assert SpaceEach(ys) == [" " + ys[0]] + SpaceEach(ys[1..]);
    }
  }

  /** Joining with ", " is joining with "," the skills after the first spaced. */
  lemma JoinWithSpace(xs: seq<string>)
    requires |xs| > 1
    ensures Join(xs, ", ") == Join([xs[0]] + SpaceEach(xs[1..]), ",")
  {
    SpaceBeforeJoin(xs[1..]);
    var spaced := [xs[0]] + SpaceEach(xs[1..]);
    assert spaced[1..] == SpaceEach(xs[1..]);
  }

  /** The pieces `split(',')` finds in a joined non-empty skills list. */
  function JoinedPieces(xs: seq<string>): (r: seq<string>)
    requires |xs| > 0
    ensures |r| == |xs|
  {
    [xs[0]] + SpaceEach(xs[1..])
  }

  lemma {:induction false} SpaceEachHasNoComma(ys: seq<string>)
    requires AllSkills(ys)
    ensures forall k :: 0 <= k < |ys| ==> ',' !in SpaceEach(ys)[k]
  {
    if |ys| > 0 {
      assert ',' !in " " + ys[0];
      SpaceEachHasNoComma(ys[1..]);
    }
  }

  lemma SplitJoinedSkills(xs: seq<string>)
    requires |xs| > 0 && AllSkills(xs)
    ensures Split(JoinSkills(xs), ',') == JoinedPieces(xs)
  {
    var pieces := JoinedPieces(xs);
    if |xs| == 1 {
      assert JoinSkills(xs) == Join(pieces, ",");
    } else {
      JoinWithSpace(xs);
    }
    SpaceEachHasNoComma(xs[1..]);
    assert forall k :: 1 <= k < |pieces| ==> pieces[k] == SpaceEach(xs[1..])[k - 1];
    SplitJoin(pieces, ',');
  }

  /** A skill after the space of the delimiter trims back to itself. */
  lemma TrimSpacedSkill(x: string)
    requires IsSkill(x)
    ensures Trim(" " + x) == x
  {
    TrimSpacePrefix(" ", x);
    TrimOfTrimmed(x);
  }

  lemma {:induction false} TrimSpaceEach(ys: seq<string>)
    requires AllSkills(ys)
    ensures TrimEach(SpaceEach(ys)) == ys
  {
    if |ys| > 0 {
      var sp := SpaceEach(ys);
      assert sp[0] == " " + ys[0] && sp[1..] == SpaceEach(ys[1..]);
      TrimSpacedSkill(ys[0]);
      TrimSpaceEach(ys[1..]);
    }
  }

  lemma TrimJoinedPieces(x: string, rest: seq<string>)
    requires IsSkill(x) && AllSkills(rest)
    ensures TrimEach([x] + SpaceEach(rest)) == [x] + rest
  {
    var pieces := [x] + SpaceEach(rest);
    assert pieces[0] == x && pieces[1..] == SpaceEach(rest);
    TrimOfTrimmed(x);
    TrimSpaceEach(rest);
  }

  /** The round trip of the edit form: joining a stored skills list for editing
      and parsing the text again on save gives back the same list, in order and
      with its case. */
  lemma SkillsRoundTrip(xs: seq<string>)
    requires AllSkills(xs)
    ensures ParseSkills(JoinSkills(xs)) == xs
  {
    if |xs| == 0 {
      assert Split("", ',') == [""];
      assert TrimEach([""]) == [""];
    } else {
      SplitJoinedSkills(xs);
      assert AllSkills(xs[1..]);
      TrimJoinedPieces(xs[0], xs[1..]);
      assert xs == [xs[0]] + xs[1..];
      DropEmptyOfNonEmpty(xs);
    }
  }

  /** An empty skills box saves an empty list. */
  lemma ParseNoSkills()
    ensures ParseSkills("") == []
  {
    assert Split("", ',') == [""];
    assert TrimEach([""]) == [""];
  }

  /** The skills text of a row being edited: `skills.join(', ')`, or "" for a null list. */
  function SkillsText(skills: Option<seq<string>>): (text: string)
    ensures skills.None? ==> text == ""
    ensures skills.Some? && AllSkills(skills.value) ==> ParseSkills(text) == skills.value
  {
    match skills
    case None => ""
    case Some(xs) =>
      if AllSkills(xs) then SkillsRoundTrip(xs); JoinSkills(xs) else JoinSkills(xs)
  }

  /** The value an integer input of the form holds: a number (the default 0 or
      the edited row's column), JavaScript `null` (a column left empty), or the
      text typed into a `type="number"` input. */
  datatype NumField = Num(n: int) | Missing | Typed(text: string)

  /** `parseInt(value)`. `parseInt` reads its argument as text: a number is
      written out in decimal and reads back as itself, `null` becomes the text
      `"null"` and reads as `NaN` (`None`), typed text is read as typed. */
  function ParseIntField(v: NumField): (r: Option<int>)
    ensures v.Num? ==> r == ParseInt(IntToDecimal(v.n))
    ensures v.Missing? ==> r == ParseInt("null")
    ensures v.Typed? ==> r == ParseInt(v.text)
  {
    match v
    case Num(n) => ParseIntOfDecimal(n); Some(n)
    case Missing => None
    case Typed(t) => ParseInt(t)
  }

  /** `parseInt(value) || 0`: the parsed integer, or 0 when parsing gives `NaN`.
      Nothing is clamped: a negative value passes through. */
  function IntOrZero(v: NumField): (n: int)
    ensures ParseIntField(v).Some? ==> n == ParseIntField(v).value
    ensures ParseIntField(v).None? ==> n == 0
  {
    match ParseIntField(v)
    case None => 0
    case Some(k) => k
  }

  /** Every integer typed in decimal, negative ones included, is stored as itself. */
  lemma TypedIntegerKept(n: int)
    ensures IntOrZero(Typed(IntToDecimal(n))) == n
  {
    ParseIntOfDecimal(n);
  }

  /** `parseFloat(rating) || 5.0` for the rating the form carries unedited:
      a missing rating (`NaN`) or 0 becomes 5.0, any other value is kept. */
  function RatingOrDefault(rating: Option<real>): (r: real)
    ensures r != 0.0
    ensures rating.Some? && rating.value != 0.0 ==> r == rating.value
    ensures rating.None? || rating.value == 0.0 ==> r == 5.0
  {
    match rating
    case Some(x) => if x != 0.0 then x else 5.0
    case None => 5.0
  }

  /** A skill padded with one space on each side trims back to itself. */
  lemma TrimPadded(x: string)
    requires IsSkill(x)
    ensures Trim(" " + x + " ") == x
  {
    assert " " + x + " " == " " + (x + " ");
    TrimSpacePrefix(" ", x + " ");
    assert TrimStart(x + " ") == x + " " by {
      assert (x + " ")[0] == x[0];
    }
    TrimEndSpaceSuffix(x, " ");
    TrimEndOfTrimmed(x);
  }

  lemma TrimEachCons(x: string, rest: seq<string>)
    ensures TrimEach([x] + rest) == [Trim(x)] + TrimEach(rest)
  {
    assert ([x] + rest)[1..] == rest;
  }

  lemma DropEmptyCons(x: string, rest: seq<string>)
    ensures DropEmpty([x] + rest) == (if x == "" then [] else [x]) + DropEmpty(rest)
  {
    assert ([x] + rest)[1..] == rest;
  }

  /** Ragged input: a padded skill and an empty piece between two commas. */
  lemma SplitThree(a: string, b: string, c: string)
    requires IsSkill(a) && IsSkill(b) && IsSkill(c)
    ensures Split(a + ", " + b + " ,, " + c, ',') == [a] + ([" " + b + " "] + ([""] + [" " + c]))
  {
    var p2 := " " + b + " ";
    var p4 := " " + c;
    var s3 := "" + [','] + p4;
    var s2 := p2 + [','] + s3;
    assert a + ", " + b + " ,, " + c == a + [','] + s2;
    assert ',' !in p2 && ',' !in p4;
    SplitAtSeparator(a, ',', s2);
    SplitAtSeparator(p2, ',', s3);
    SplitAtSeparator("", ',', p4);
  }

  lemma TrimThree(a: string, b: string, c: string)
    requires IsSkill(a) && IsSkill(b) && IsSkill(c)
    ensures TrimEach([a] + ([" " + b + " "] + ([""] + [" " + c]))) == [a] + ([b] + ([""] + [c]))
  {
    var r3 := [" " + c];
    assert TrimEach(r3) == [c] by {
      TrimSpacedSkill(c);
    }
    var r2 := [""] + r3;
    assert TrimEach(r2) == [""] + [c] by {
      TrimEachCons("", r3);
    }
    var r1 := [" " + b + " "] + r2;
    assert TrimEach(r1) == [b] + ([""] + [c]) by {
      TrimPadded(b);
      TrimEachCons(" " + b + " ", r2);
    }
    assert TrimEach([a] + r1) == [a] + ([b] + ([""] + [c])) by {
      TrimOfTrimmed(a);
      TrimEachCons(a, r1);
    }
  }

  lemma DropThree(a: string, b: string, c: string)
    requires a != "" && b != "" && c != ""
    ensures DropEmpty([a] + ([b] + ([""] + [c]))) == [a, b, c]
  {
    DropEmptyCons(a, [b] + ([""] + [c]));
    DropEmptyCons(b, [""] + [c]);
    DropEmptyCons("", [c]);
    assert DropEmpty([c]) == [c];
  }

  /** Stray spaces and empty entries typed into the skills box are dropped. */
  lemma ParseRaggedSkills(a: string, b: string, c: string)
    requires IsSkill(a) && IsSkill(b) && IsSkill(c)
    ensures ParseSkills(a + ", " + b + " ,, " + c) == [a, b, c]
  {
    SplitThree(a, b, c);
    TrimThree(a, b, c);
    DropThree(a, b, c);
  }

  /** A skill holding a comma does not survive the round trip: it comes
      back as the two skills on either side of the comma. */
  lemma CommaInSkillSplits(a: string, b: string)
    requires IsSkill(a) && IsSkill(b)
    ensures JoinSkills([a + "," + b]) == a + "," + b
    ensures ParseSkills(JoinSkills([a + "," + b])) == [a, b]
  {
    assert a + "," + b == a + [','] + b;
    SplitAtSeparator(a, ',', b);
    assert Split(a + "," + b, ',') == [a] + [b];
    assert TrimEach([a] + [b]) == [a] + [b] by {
      TrimOfTrimmed(a);
      TrimOfTrimmed(b);
      TrimEachCons(a, [b]);
    }
    DropEmptyCons(a, [b]);
    assert DropEmpty([b]) == [b];
  }

  lemma ParseSkillsExample()
    ensures ParseSkills("React, Node.js ,, Python") == ["React", "Node.js", "Python"]
  {
    assert "React, Node.js ,, Python" == "React" + ", " + "Node.js" + " ,, " + "Python";
    ParseRaggedSkills("React", "Node.js", "Python");
  }

  lemma ParseIntSignedExample()
    ensures ParseInt(" -7") == Some(-7)
  {
    assert " -7"[1..] == "-7";
    assert TrimStart(" -7") == "-7";
    assert Unsigned("-7") == "7";
    assert "7"[1..] == "";
    assert DigitRunLength("7") == 1;
    assert "7"[..1] == "7";
    assert "7"[..0] == "";
  }

  /** `parseInt` keeps the leading digits and ignores what follows them. */
  lemma ParseIntPrefixExample()
    ensures ParseInt("12abc") == Some(12)
  {
    assert TrimStart("12abc") == "12abc";
    assert Unsigned("12abc") == "12abc";
    assert "12abc"[1..] == "2abc";
    assert "2abc"[1..] == "abc";
    assert DigitRunLength("12abc") == 2;
    assert "12abc"[..2] == "12";
    assert "12"[..1] == "1";
    assert "1"[..0] == "";
  }

  /** `parseInt` reads decimal digits only: leading zeros count for nothing. */
  lemma ParseIntLeadingZerosExample()
    ensures ParseInt("007") == Some(7)
  {
    var d := "007";
    assert d[..2] == "00" && d[..2][..1] == "0";
    assert DigitsValue("0") == 0;
    assert DigitsValue("00") == 0;
    assert DigitsValue(d) == 7;
    ParseIntDigits(d, "");
    assert d + "" == d;
  }

  /** A leading `+` is accepted and dropped. */
  lemma ParseIntPlusExample()
    ensures ParseInt("+5") == Some(5)
  {
    ParseIntSignedDigits('+', "5", "");
    assert ['+'] + "5" + "" == "+5";
  }

  /** An exponent is not read: `"1e3"` is 1, not 1000. */
  lemma ParseIntExponentExample()
    ensures ParseInt("1e3") == Some(1)
  {
    ParseIntDigits("1", "e3");
    assert "1" + "e3" == "1e3";
  }

  lemma ParseIntNoDigitsExample()
    ensures ParseInt("abc") == None && ParseInt("") == None
  {
    assert TrimStart("abc") == "abc";
  }

  /** What `parseInt(v) || 0` stores for a few typed values. */
  lemma IntOrZeroExamples()
    ensures IntOrZero(Typed("abc")) == 0
    ensures IntOrZero(Typed("")) == 0
    ensures IntOrZero(Typed(" -7")) == -7
    ensures IntOrZero(Typed("12abc")) == 12
  {
    ParseIntSignedExample();
    ParseIntPrefixExample();
    ParseIntNoDigitsExample();
  }
}
