/** The text shaping of the resume preview: the contact line under the name,
    the bullet lines made from a free-text description, and the fallbacks
    shown for missing values. The same shaping is repeated by the page's
    print view (app/page.tsx), so this model covers both. */
module ResumePreview {
  import opened Text
  import opened ResumeData

  // ---------------------------------------------------------------------
  // Contact line

  const ContactSeparator := " \U{2022} "

  /** `if (value) parts.push(value)`. */
  function PushIfSet(parts: seq<string>, value: string): seq<string> {
    if Truthy(value) then parts + [value] else parts
  }

  /** The parts pushed, in the order phone, email, LinkedIn, website. */
  function ContactParts(p: PersonalInfo): seq<string> {
    PushIfSet(PushIfSet(PushIfSet(PushIfSet([], p.phone), p.email), p.linkedin), p.website)
  }

  function ContactLine(p: PersonalInfo): string {
    Join(ContactParts(p), ContactSeparator)
  }

  /** Builds the parts and the line the way the component does. */
  method BuildContactLine(p: PersonalInfo) returns (parts: seq<string>, line: string)
    ensures parts == ContactParts(p) && line == ContactLine(p)
    ensures forall k | 0 <= k < |parts| :: parts[k] != ""
  {
    parts := [];
    if Truthy(p.phone) { parts := parts + [p.phone]; }
    if Truthy(p.email) { parts := parts + [p.email]; }
    if Truthy(p.linkedin) { parts := parts + [p.linkedin]; }
    if Truthy(p.website) { parts := parts + [p.website]; }
    line := Join(parts, ContactSeparator);
  }

  /** The non-empty strings of `xs`, in order. */
  function KeepSet(xs: seq<string>): (r: seq<string>)
    ensures |r| <= |xs|
    ensures forall k | 0 <= k < |r| :: r[k] != "" && r[k] in xs
    ensures forall x | x in xs && x != "" :: x in r
  {
    if xs == [] then []
    else (if Truthy(xs[0]) then [xs[0]] else []) + KeepSet(xs[1..])
  }

  /** Pushing a value when it is set keeps the non-empty values of the
      longer list. */
  lemma {:induction false} KeepSetSnoc(xs: seq<string>, x: string)
    ensures KeepSet(xs + [x]) == PushIfSet(KeepSet(xs), x)
  {
    if xs == [] {
      assert [x][1..] == [];
    } else {
      assert (xs + [x])[0] == xs[0] && (xs + [x])[1..] == xs[1..] + [x];
      KeepSetSnoc(xs[1..], x);
    }
  }

  /** The parts are exactly the non-empty fields among phone, email,
      LinkedIn and website, in that order. */
  lemma ContactPartsAreSetFields(p: PersonalInfo)
    ensures ContactParts(p) == KeepSet([p.phone, p.email, p.linkedin, p.website])
  {
    var xs1 := [] + [p.phone];
    var xs2 := xs1 + [p.email];
    var xs3 := xs2 + [p.linkedin];
    var xs4 := xs3 + [p.website];
    KeepSetSnoc([], p.phone);
    assert KeepSet([]) == [];
    KeepSetSnoc(xs1, p.email);
    KeepSetSnoc(xs2, p.linkedin);
    KeepSetSnoc(xs3, p.website);
    assert xs4 == [p.phone, p.email, p.linkedin, p.website];
  }

  /** Joining non-empty parts gives the empty string only for no parts. */
  lemma JoinEmptyIff(parts: seq<string>, sep: string)
    requires forall k | 0 <= k < |parts| :: parts[k] != ""
    ensures Join(parts, sep) == "" <==> parts == []
  {
    if parts != [] {
      assert parts[0] != "";
      assert |Join(parts, sep)| >= |parts[0]|;
    }
  }

  /** The contact line is shown only when it is not empty, and it is empty
      exactly when all four fields are empty; a separator stands only
      between two filled fields. */
  lemma ContactLineEmptyIff(p: PersonalInfo)
    ensures ContactLine(p) == "" <==> p.phone == "" && p.email == "" && p.linkedin == "" && p.website == ""
  {
    ContactPartsAreSetFields(p);
    var parts := ContactParts(p);
    JoinEmptyIff(parts, ContactSeparator);
    if parts == [] {
      assert p.phone !in parts && p.email !in parts && p.linkedin !in parts && p.website !in parts;
    }
  }

  /** Two filled fields are joined by exactly one separator, whichever
      fields they are. */
  lemma TwoContactParts(p: PersonalInfo, a: string, b: string)
    requires ContactParts(p) == [a, b]
    ensures ContactLine(p) == a + ContactSeparator + b
  {
    var parts := [a, b];
    assert parts[0] == a && parts[1..] == [b];
    assert Join(parts, ContactSeparator) == a + ContactSeparator + Join([b], ContactSeparator);
  }

  // ---------------------------------------------------------------------
  // Description lines

  /** The characters of `^[•\-*]`. */
  predicate IsMarker(c: char) {
    c == '\U{2022}' || c == '-' || c == '*'
  }

  /** `line.replace(/^[•\-*]\s*\/, "")`: drops one marker at the very start
      of the line and the white space after it, and nothing else. */
  function StripMarker(line: string): (r: string)
    ensures |r| <= |line| && r == line[|line| - |r|..]
    ensures line == "" || !IsMarker(line[0]) ==> r == line
    ensures line != "" && IsMarker(line[0]) ==>
      && |r| < |line|
      && AllWhitespace(line[1..|line| - |r|])
      && (r != "" ==> !IsWhitespace(r[0]))
  {
    if line != "" && IsMarker(line[0]) then
      var t := TrimStart(line[1..]);
      assert line[1..][..|line| - 1 - |t|] == line[1..|line| - |t|];
      t
    else line
  }

  /** `!line.trim()`: a line of white space only (see `TrimEmptyIff`). */
  predicate Blank(line: string) {
    AllWhitespace(line)
  }

  /** `.filter((line) => line.trim())`: the lines that are not blank, kept
      as they are and in order. */
  function KeepNonBlank(lines: seq<string>): (r: seq<string>)
    ensures |r| <= |lines|
    ensures forall k | 0 <= k < |r| :: !Blank(r[k]) && r[k] in lines
    ensures forall l | l in lines && !Blank(l) :: l in r
  {
    if lines == [] then []
    else (if !Blank(lines[0]) then [lines[0]] else []) + KeepNonBlank(lines[1..])
  }

  /** A kept line is exactly one whose trimmed text is not empty. */
  lemma KeptLinesTrimNonEmpty(lines: seq<string>)
    ensures forall k | 0 <= k < |KeepNonBlank(lines)| :: Trim(KeepNonBlank(lines)[k]) != ""
    ensures forall l | l in lines && Trim(l) != "" :: l in KeepNonBlank(lines)
  {
    forall l | l in lines || l in KeepNonBlank(lines)
      ensures Trim(l) == "" <==> Blank(l)
    {
      TrimEmptyIff(l);
    }
  }

  /** Filtering a concatenation filters each part. */
  lemma {:induction false} KeepNonBlankAppend(a: seq<string>, b: seq<string>)
    ensures KeepNonBlank(a + b) == KeepNonBlank(a) + KeepNonBlank(b)
  {
    if a == [] {
      assert a + b == b;
    } else {
      assert (a + b)[0] == a[0] && (a + b)[1..] == a[1..] + b;
      KeepNonBlankAppend(a[1..], b);
    }
  }

  function StripMarkers(lines: seq<string>): (r: seq<string>)
    ensures |r| == |lines|
    ensures forall k | 0 <= k < |lines| :: r[k] == StripMarker(lines[k])
  {
    if lines == [] then [] else [StripMarker(lines[0])] + StripMarkers(lines[1..])
  }

  /** The bullet texts of an experience or activity description. */
  function DescriptionLines(description: string): seq<string> {
    StripMarkers(KeepNonBlank(Split(description, '\n')))
  }

  /** The first line of a description becomes the first bullet unless it is
      blank, and the rest of the description gives the rest of the bullets. */
  lemma DescriptionLinesStep(first: string, rest: string)
    requires '\n' !in first
    ensures DescriptionLines(first + ['\n'] + rest) ==
      (if Blank(first) then [] else [StripMarker(first)]) + DescriptionLines(rest)
  {
    SplitFirstPiece(first, rest, '\n');
    var lines := Split(rest, '\n');
    assert ([first] + lines)[0] == first && ([first] + lines)[1..] == lines;
    var kept := KeepNonBlank(lines);
    if !Blank(first) {
      assert ([first] + kept)[0] == first && ([first] + kept)[1..] == kept;
    }
  }

  /** A description of one line gives that line, stripped, unless it is blank. */
  lemma DescriptionOfOneLine(line: string)
    requires '\n' !in line
    ensures DescriptionLines(line) == if Blank(line) then [] else [StripMarker(line)]
  {
    SplitNoSeparator(line, '\n');
    assert [line][1..] == [];
  }

  /** An empty description gives no bullets, so the guard on `description`
      before the list changes nothing. */
  lemma EmptyDescriptionHasNoLines()
    ensures DescriptionLines("") == []
  {
    DescriptionOfOneLine("");
  }

  /** A marker followed by white space and a text is replaced by the text. */
  lemma StripOneMarker(m: char, space: string, text: string)
    requires IsMarker(m) && AllWhitespace(space)
    requires text == "" || !IsWhitespace(text[0])
    ensures StripMarker([m] + space + text) == text
  {
    var s := space + text;
    assert ([m] + space + text)[1..] == s;
    assert forall i | 0 <= i < |space| :: s[i] == space[i];
    assert text != "" ==> s[|space|] == text[0];
    assert LeadingSpace(s) == |space|;
    assert s[|space|..] == text;
  }

  /** Only one marker goes: "• • x" shows as "• x". */
  lemma NestedMarkerKept()
    ensures StripMarker("\U{2022} \U{2022} x") == "\U{2022} x"
  {
    assert "\U{2022} \U{2022} x" == ['\U{2022}'] + " " + "\U{2022} x";
    StripOneMarker('\U{2022}', " ", "\U{2022} x");
  }

  /** The marker test looks at the untrimmed line, so an indented marker
      stays; the line is kept whole, indentation included. */
  lemma IndentedMarkerKept(indent: string, text: string)
    requires indent != "" && AllWhitespace(indent)
    requires !Blank(text) && '\n' !in indent + text
    ensures DescriptionLines(indent + text) == [indent + text]
  {
    var line := indent + text;
    assert line[0] == indent[0];
    var k :| 0 <= k < |text| && !IsWhitespace(text[k]);
    assert line[|indent| + k] == text[k];
    DescriptionOfOneLine(line);
  }

  // ---------------------------------------------------------------------
  // Fallbacks

  /** `fullName || "FIRSTNAME LASTNAME"`: the heading is never empty. */
  function DisplayName(p: PersonalInfo): (r: string)
    ensures r != ""
    ensures Truthy(p.fullName) ==> r == p.fullName
  {
    if Truthy(p.fullName) then p.fullName else "FIRSTNAME LASTNAME"
  }

  /** `graduationDate || "Expected YYYY"`: the date column is never empty. */
  function GraduationLabel(e: Education): (r: string)
    ensures r != ""
    ensures Truthy(e.graduationDate) ==> r == e.graduationDate
  {
    if Truthy(e.graduationDate) then e.graduationDate else "Expected YYYY"
  }

  /** `startDate - (current ? "Present" : endDate)`. */
  function DateRange(startDate: string, current: bool, endDate: string): (r: string)
    ensures StartsWith(r, startDate + " - ")
    ensures r[|startDate| + 3..] == if current then "Present" else endDate
  {
    startDate + " - " + (if current then "Present" else endDate)
  }

  function ExperienceDates(e: Experience): string {
    DateRange(e.startDate, e.current, e.endDate)
  }

  function ActivityDates(a: Activity): string {
    DateRange(a.startDate, a.current, a.endDate)
  }

  /** A current position shows "Present" whatever end date it holds. */
  lemma CurrentIgnoresEndDate(e: Experience, endDate: string)
    requires e.current
    ensures ExperienceDates(e) == ExperienceDates(e.(endDate := endDate))
  {
  }

  /** `degree` then `" of " + field` only when the field is set. */
  function DegreeLine(e: Education): (r: string)
    ensures StartsWith(r, e.degree)
    ensures !Truthy(e.field) ==> r == e.degree
    ensures Truthy(e.field) ==> r[|e.degree|..] == " of " + e.field
  {
    e.degree + (if Truthy(e.field) then " of " + e.field else "")
  }

  /** `gpa && ("GPA: " + gpa)`: a line only for a GPA that is present and
      not empty. */
  function GpaLine(gpa: Option<string>): (r: Option<string>)
    ensures r.Some? <==> gpa.Some? && gpa.value != ""
    ensures r.Some? ==> r.value == "GPA: " + gpa.value
  {
    match gpa
    case Some(g) => if Truthy(g) then Some("GPA: " + g) else None
    case None => None
  }
}
