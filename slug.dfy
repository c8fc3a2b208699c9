/**
 * The stored-file naming rules shared by the batch ingester and the upload page:
 * `_slugify` and `_build_upload_path`.
 */
module Slug {
  import opened Text
  import opened Wrappers

  /** A character the pattern `[a-z0-9]` accepts. */
  predicate IsSlugChar(c: char) {
    ('a' <= c <= 'z') || ('0' <= c <= '9')
  }

  /** The shape every slug has: only `[a-z0-9-]`, non-empty, no edge hyphen, no `--`. */
  predicate IsSlug(s: string) {
    && s != []
    && (forall i | 0 <= i < |s| :: IsSlugChar(s[i]) || s[i] == '-')
    && s[0] != '-' && s[|s| - 1] != '-'
    && (forall i, j | 0 <= i && j == i + 1 < |s| :: !(s[i] == '-' && s[j] == '-'))
  }

  /** The characters of `s` that `[a-z0-9]` accepts, in order. */
  function SlugChars(s: string): (r: string)
    ensures forall i | 0 <= i < |r| :: IsSlugChar(r[i])
  {
    if s == [] then [] else (if IsSlugChar(s[0]) then [s[0]] else []) + SlugChars(s[1..])
  }

  /**
   * `re.sub(r"[^a-z0-9]+", "-", s)`: every maximal run of other characters becomes one
   * hyphen; `inRun` says the character before `s` was already part of such a run.
   */
  function CollapseRuns(s: string, inRun: bool): (r: string)
    ensures forall i | 0 <= i < |r| :: IsSlugChar(r[i]) || r[i] == '-'
    ensures forall i, j | 0 <= i && j == i + 1 < |r| :: !(r[i] == '-' && r[j] == '-')
    ensures inRun && r != [] ==> r[0] != '-'
    ensures SlugChars(r) == SlugChars(s)
  {
    if s == [] then []
    else if IsSlugChar(s[0]) then [s[0]] + CollapseRuns(s[1..], false)
    else if inRun then CollapseRuns(s[1..], true)
    else ['-'] + CollapseRuns(s[1..], true)
  }

  /** `s.lstrip("-")` */
  function TrimLeadingDashes(s: string): (r: string)
    ensures |r| <= |s| && r == s[|s| - |r|..]
    ensures r != [] ==> r[0] != '-'
    ensures SlugChars(r) == SlugChars(s)
  {
    if s != [] && s[0] == '-' then TrimLeadingDashes(s[1..]) else s
  }

  /** `s.rstrip("-")` */
  function TrimTrailingDashes(s: string): (r: string)
    ensures |r| <= |s| && r == s[..|r|]
    ensures r != [] ==> r[|r| - 1] != '-'
    ensures SlugChars(r) == SlugChars(s)
  {
    if s != [] && s[|s| - 1] == '-' then
      SlugCharsSnoc(s[..|s| - 1], '-');
      assert s == s[..|s| - 1] + ['-'];
      TrimTrailingDashes(s[..|s| - 1])
    else s
  }

  lemma {:induction false} SlugCharsSnoc(s: string, c: char)
    ensures SlugChars(s + [c]) == SlugChars(s) + (if IsSlugChar(c) then [c] else [])
  {
    if s != [] {
      assert (s + [c])[1..] == s[1..] + [c];
      SlugCharsSnoc(s[1..], c);
    }
  }

  /** `s.strip("-")` */
  function TrimDashes(s: string): string {
    TrimTrailingDashes(TrimLeadingDashes(s))
  }

  /**
   * `_slugify`: strip, lower-case, collapse every run of characters outside `[a-z0-9]`
   * into one hyphen, trim edge hyphens; `"unknown"` when nothing is left.
   */
  function Slugify(value: string): (r: string)
    ensures IsSlug(r)
    ensures SlugChars(r) == if SlugChars(Lower(value)) == [] then "unknown" else SlugChars(Lower(value))
    ensures SlugChars(Lower(value)) == [] ==> r == "unknown"
  {
    var collapsed := CollapseRuns(Lower(Strip(value)), false);
    var trimmed := TrimDashes(collapsed);
    SlugCharsOfStrip(value);
    assert IsCollapsed(collapsed);
    TrimKeepsShape(collapsed);
    assert SlugChars(trimmed) == SlugChars(Lower(value));
    if trimmed == [] then UnknownIsSlug(); "unknown" else trimmed
  }

  lemma UnknownIsSlug()
    ensures IsSlug("unknown") && SlugChars("unknown") == "unknown"
  {
    var u := "unknown";
    forall i | 0 <= i < |u| ensures IsSlugChar(u[i]) {
      assert u[i] in "unknown";
    }
    OnlySlugChars(u);
  }

  /** A non-empty string of `[a-z0-9]` characters only is a slug, and its own `SlugChars`. */
  lemma OnlySlugChars(s: string)
    requires s != [] && forall i | 0 <= i < |s| :: IsSlugChar(s[i])
    ensures IsSlug(s) && SlugChars(s) == s
  {
    AllSlugChars(s);
  }

  lemma {:induction false} AllSlugChars(s: string)
    requires forall i | 0 <= i < |s| :: IsSlugChar(s[i])
    ensures SlugChars(s) == s
  {
    if s != [] {
      assert forall i | 0 <= i < |s[1..]| :: s[1..][i] == s[i + 1];
      AllSlugChars(s[1..]);
    }
  }

  /** Stripping whitespace removes no `[a-z0-9]` character, even after lower-casing. */
  lemma SlugCharsOfStrip(value: string)
    ensures SlugChars(Lower(Strip(value))) == SlugChars(Lower(value))
  {
    var l := StripLeft(value);
    var k := StripLeftSplit(value);
    SlugCharsLowerBlank(value[..k], l);
    var j := StripRightSplit(l);
    SlugCharsLowerBlankRight(StripRight(l), l[j..]);
  }

  lemma StripLeftSplit(value: string) returns (k: nat)
    ensures k <= |value| && value == value[..k] + StripLeft(value) && IsBlank(value[..k])
  {
    k := |value| - |StripLeft(value)|;
    StripLeftDropsBlank(value);
    StripLeftShape(value);
    assert forall i | 0 <= i < k :: value[..k][i] == value[i];
  }

  lemma StripRightSplit(l: string) returns (j: nat)
    ensures j <= |l| && l == StripRight(l) + l[j..] && IsBlank(l[j..]) && j == |StripRight(l)|
  {
    j := |StripRight(l)|;
    StripRightDropsBlank(l);
    StripRightShape(l);
    assert forall i | 0 <= i < |l| - j :: l[j..][i] == l[j + i];
  }

  lemma {:induction false} SlugCharsLowerAppend(a: string, b: string)
    ensures SlugChars(Lower(a + b)) == SlugChars(Lower(a)) + SlugChars(Lower(b))
  {
    if a != [] {
      assert Lower(a + b) == [LowerChar(a[0])] + Lower(a[1..] + b);
      assert Lower(a) == [LowerChar(a[0])] + Lower(a[1..]);
      assert (a + b)[1..] == a[1..] + b;
      SlugCharsLowerAppend(a[1..], b);
    } else {
      assert a + b == b;
    }
  }

  lemma {:induction false} SlugCharsLowerOfBlank(w: string)
    requires IsBlank(w)
    ensures SlugChars(Lower(w)) == []
  {
    if w != [] {
      assert Lower(w) == [LowerChar(w[0])] + Lower(w[1..]);
      SlugCharsLowerOfBlank(w[1..]);
    }
  }

  lemma SlugCharsLowerBlank(w: string, rest: string)
    requires IsBlank(w)
    ensures SlugChars(Lower(w + rest)) == SlugChars(Lower(rest))
  {
    SlugCharsLowerAppend(w, rest);
    SlugCharsLowerOfBlank(w);
  }

  lemma SlugCharsLowerBlankRight(r: string, w: string)
    requires IsBlank(w)
    ensures SlugChars(Lower(r + w)) == SlugChars(Lower(r))
  {
    SlugCharsLowerAppend(r, w);
    SlugCharsLowerOfBlank(w);
  }

  /** Only `[a-z0-9-]` and no `--`: what `CollapseRuns` produces. */
  predicate IsCollapsed(s: string) {
    && (forall i | 0 <= i < |s| :: IsSlugChar(s[i]) || s[i] == '-')
    && (forall i, j | 0 <= i && j == i + 1 < |s| :: !(s[i] == '-' && s[j] == '-'))
  }

  lemma SliceOfCollapsed(s: string, a: nat, b: nat)
    requires a <= b <= |s| && IsCollapsed(s)
    ensures IsCollapsed(s[a..b])
  {
    var t := s[a..b];
    assert forall i | 0 <= i < |t| :: t[i] == s[a + i];
  }

  /** Trimming edge hyphens keeps the no-`--` and character-set properties of a collapsed string. */
  lemma TrimKeepsShape(s: string)
    requires IsCollapsed(s)
    ensures TrimDashes(s) == [] || IsSlug(TrimDashes(s))
    ensures TrimDashes(s) == [] <==> SlugChars(s) == []
  {
    var l := TrimLeadingDashes(s);
    SliceOfCollapsed(s, |s| - |l|, |s|);
    var t := TrimTrailingDashes(l);
    SliceOfCollapsed(l, 0, |t|);
    assert TrimDashes(s) == t;
    assert SlugChars(t) == SlugChars(s);
    if t != [] {
      assert t[0] == l[0] && l[0] != '-';
      assert IsSlugChar(t[0]);
      SlugCharsHas(t, 0);
      assert IsSlug(t);
    }
  }

  lemma {:induction false} SlugCharsHas(s: string, i: nat)
    requires i < |s| && IsSlugChar(s[i])
    ensures SlugChars(s) != []
  {
    if i > 0 { SlugCharsHas(s[1..], i - 1); }
  }

  /** A slug is its own slug: `_slugify` is idempotent. */
  lemma SlugifyIdempotent(value: string)
    ensures Slugify(Slugify(value)) == Slugify(value)
  {
    var s := Slugify(value);
    SlugIsFixpoint(s);
  }

  lemma SlugIsFixpoint(s: string)
    requires IsSlug(s)
    ensures Slugify(s) == s
  {
    NoSpaceStrip(s);
    LowerOfSlug(s);
    CollapseOfSlug(s, false);
    assert TrimLeadingDashes(s) == s;
    assert TrimTrailingDashes(s) == s;
  }

  lemma NoSpaceStrip(s: string)
    requires IsSlug(s)
    ensures Strip(s) == s
  {
    assert !IsSpace(s[0]);
    assert StripLeft(s) == s;
    assert !IsSpace(s[|s| - 1]);
  }

  lemma LowerOfSlug(s: string)
    requires forall i | 0 <= i < |s| :: IsSlugChar(s[i]) || s[i] == '-'
    ensures Lower(s) == s
  {
  }

  lemma {:induction false} CollapseOfSlug(s: string, inRun: bool)
    requires forall i | 0 <= i < |s| :: IsSlugChar(s[i]) || s[i] == '-'
    requires forall i, j | 0 <= i && j == i + 1 < |s| :: !(s[i] == '-' && s[j] == '-')
    requires inRun ==> s == [] || s[0] != '-'
    ensures CollapseRuns(s, inRun) == s
  {
    if s != [] {
      CollapseOfSlug(s[1..], s[0] == '-');
    }
  }

  /** The fields of a `datetime.date`, before the range checks its constructor makes. */
  datatype CalendarDate = CalendarDate(year: nat, month: nat, day: nat)

  predicate IsLeapYear(y: nat) {
    y % 4 == 0 && (y % 100 != 0 || y % 400 == 0)
  }

  /** Days of month `m` (1-12) in year `y`, proleptic Gregorian, as `datetime` counts them. */
  function DaysInMonth(y: nat, m: nat): (n: nat)
    requires 1 <= m <= 12
    ensures 28 <= n <= 31
    ensures m == 2 ==> (n == 29 <==> IsLeapYear(y))
  {
    if m == 2 then (if IsLeapYear(y) then 29 else 28)
    else if m == 4 || m == 6 || m == 9 || m == 11 then 30
    else 31
  }

  predicate ValidDate(d: CalendarDate) {
    1 <= d.year <= 9999 && 1 <= d.month <= 12 && 1 <= d.day <= DaysInMonth(d.year, d.month)
  }

  /** A calendar date, as `parse_effective_date` returns it: `datetime.MINYEAR`-`MAXYEAR`, a real month and day. */
  type Date = d: CalendarDate | ValidDate(d) witness CalendarDate(1, 1, 1)

  /** Only decimal digits and hyphens, as in a formatted date. */
  predicate IsDateText(s: string) {
    forall i | 0 <= i < |s| :: ('0' <= s[i] <= '9') || s[i] == '-'
  }

  /**
   * `d.isoformat()`, and `d.strftime("%Y-%m-%d")` for years 1000-9999: `YYYY-MM-DD`, the three
   * zero-padded digit groups denoting the year, the month and the day.
   */
  function IsoDate(d: Date): (r: string)
    ensures |r| == 10 && r[4] == '-' && r[7] == '-'
    ensures IsDigits(r[..4]) && DigitsValue(r[..4]) == d.year
    ensures IsDigits(r[5..7]) && DigitsValue(r[5..7]) == d.month
    ensures IsDigits(r[8..]) && DigitsValue(r[8..]) == d.day
    ensures IsDateText(r)
  {
    var y := ZeroPad(NatToString(d.year), 4);
    var m := ZeroPad(NatToString(d.month), 2);
    var dd := ZeroPad(NatToString(d.day), 2);
    PaddedGroup(d.year, 4);
    PaddedGroup(d.month, 2);
    PaddedGroup(d.day, 2);
    DateLayout(y, m, dd);
    y + "-" + m + "-" + dd
  }

  /** `n` zero-padded to `w` digits, when it fits, is exactly `w` digits denoting `n`. */
  lemma PaddedGroup(n: nat, w: nat)
    requires (w == 4 && n < 10000) || (w == 2 && n < 100)
    ensures var g := ZeroPad(NatToString(n), w); |g| == w && IsDigits(g) && DigitsValue(g) == n
  {
    NatToStringValue(n);
    ZeroPadValue(NatToString(n), w);
  }

  /** The positions of the groups and hyphens in `y-m-dd`. */
  lemma DateLayout(y: string, m: string, dd: string)
    requires |y| == 4 && |m| == 2 && |dd| == 2
    requires IsDigits(y) && IsDigits(m) && IsDigits(dd)
    ensures var r := y + "-" + m + "-" + dd;
      |r| == 10 && r[4] == '-' && r[7] == '-' && r[..4] == y && r[5..7] == m && r[8..] == dd
      && IsDateText(r)
  {
    var r := y + "-" + m + "-" + dd;
    assert r[..4] == y && r[5..7] == m && r[8..] == dd;
    forall i | 0 <= i < 10 ensures ('0' <= r[i] <= '9') || r[i] == '-' {
      if i < 4 { assert r[i] == y[i]; }
      else if 5 <= i < 7 { assert r[i] == m[i - 5]; }
      else if 8 <= i { assert r[i] == dd[i - 8]; }
    }
  }

  /** Distinct dates format differently, so the date part of a stored name identifies the date. */
  lemma IsoDateInjective(a: Date, b: Date)
    ensures IsoDate(a) == IsoDate(b) <==> a == b
  {
    if IsoDate(a) == IsoDate(b) {
      var r := IsoDate(a);
      assert DigitsValue(r[..4]) == a.year == b.year;
      assert DigitsValue(r[5..7]) == a.month == b.month;
      assert DigitsValue(r[8..]) == a.day == b.day;
    }
  }

  /** `Path(filename).suffix`: from the last dot of the name, unless it is the first or last character. */
  function Suffix(filename: string): (r: string)
    ensures r == [] || (2 <= |r| <= |filename| && r[0] == '.' && r == filename[|filename| - |r|..])
  {
    var i := LastDot(filename, |filename|);
    if 0 < i < |filename| - 1 then filename[i..] else ""
  }

  /** Index of the last `.` among the first `n` characters, or -1. */
  function LastDot(s: string, n: nat): (i: int)
    requires n <= |s|
    ensures -1 <= i < n
    ensures i >= 0 ==> s[i] == '.' && forall j | i < j < n :: s[j] != '.'
    ensures i == -1 ==> forall j | 0 <= j < n :: s[j] != '.'
  {
    if n == 0 then -1 else if s[n - 1] == '.' then n - 1 else LastDot(s, n - 1)
  }

  /** `config.UPLOADS_DIR` */
  const UPLOADS_DIR := "uploads"

  /** `UPLOADS_DIR / folder / name` */
  datatype UploadPath = UploadPath(root: string, folder: string, name: string)

  /** The path as text, relative to the base directory that holds the uploads folder. */
  function PathText(p: UploadPath): string {
    p.root + "/" + p.folder + "/" + p.name
  }

  /** The four parts of a stored file name before upper-casing. */
  function WaiverPart(waiverNumber: string): string {
    if waiverNumber != "" then Slugify(waiverNumber) else "unknown_waiver"
  }

  function DatePart(approvedDate: Option<Date>): string {
    if approvedDate.Some? then IsoDate(approvedDate.value) else "no_date"
  }

  function ExtPart(filename: string): string {
    var ext := Suffix(filename);
    if ext != "" then ext else ".pdf"
  }

  /**
   * `_build_upload_path`: `UPLOADS_DIR/<state or "unknown_state">/` and the upper-cased
   * `<slug or "unknown_waiver">_<YYYY-MM-DD or "no_date"><suffix or ".pdf">`.
   */
  function BuildUploadPath(state: string, waiverNumber: string, approvedDate: Option<Date>, filename: string)
    : (r: UploadPath)
    ensures r.root == UPLOADS_DIR
    ensures r.folder == if state != "" then state else "unknown_state"
    ensures r.name == Upper(WaiverPart(waiverNumber)) + "_" + Upper(DatePart(approvedDate))
                      + Upper(ExtPart(filename))
  {
    var w, d, e := WaiverPart(waiverNumber), DatePart(approvedDate), ExtPart(filename);
    UpperOfName(w, d, e);
    UploadPath(UPLOADS_DIR, if state != "" then state else "unknown_state", Upper(w + "_" + d + e))
  }

  lemma UpperOfName(w: string, d: string, e: string)
    ensures Upper(w + "_" + d + e) == Upper(w) + "_" + Upper(d) + Upper(e)
  {
    UpperAppend(w + "_" + d, e);
    UpperAppend(w + "_", d);
    UpperAppend(w, "_");
    assert Upper("_") == "_";
  }

  /** Only the file name is upper-cased; no lower-case ASCII letter is left in it. */
  lemma UploadNameHasNoLowerCase(state: string, waiverNumber: string, approvedDate: Option<Date>, filename: string)
    ensures var r := BuildUploadPath(state, waiverNumber, approvedDate, filename);
      forall i | 0 <= i < |r.name| :: !('a' <= r.name[i] <= 'z')
  {
    var w, d, e := WaiverPart(waiverNumber), DatePart(approvedDate), ExtPart(filename);
    assert BuildUploadPath(state, waiverNumber, approvedDate, filename).name == Upper(w + "_" + d + e);
    UpperHasNoLowerCase(w + "_" + d + e);
  }

  lemma UpperHasNoLowerCase(s: string)
    ensures forall i | 0 <= i < |Upper(s)| :: !('a' <= Upper(s)[i] <= 'z')
  {
    forall i | 0 <= i < |Upper(s)| ensures !('a' <= Upper(s)[i] <= 'z') {
      assert Upper(s)[i] == UpperChar(s[i]);
    }
  }

  /** With a waiver number and a date, the name is `<SLUG>_<YYYY-MM-DD><SUFFIX>`: the date is kept verbatim. */
  lemma UploadNameOfKnownFields(state: string, waiverNumber: string, d: Date, filename: string)
    requires waiverNumber != ""
    ensures BuildUploadPath(state, waiverNumber, Some(d), filename).name
         == Upper(Slugify(waiverNumber)) + "_" + IsoDate(d) + Upper(ExtPart(filename))
  {
    UpperOfDateText(IsoDate(d));
  }

  lemma UpperOfDateText(s: string)
    requires IsDateText(s)
    ensures Upper(s) == s
  {
  }
}
