/**
 * `core/config.py`: the table of U.S. states, the lower-cased name -> code map the
 * ingesters derive from it, and `update_config`.
 */
module Config {
  import opened Text
  import opened Wrappers

  /** Row `i` of `US_STATES`: (two-letter code, state name). */
  function StateEntry(i: nat): (string, string)
    requires i < 50
  {
    match i
    case 0 => ("AL", "Alabama")
    case 1 => ("AK", "Alaska")
    case 2 => ("AZ", "Arizona")
    case 3 => ("AR", "Arkansas")
    case 4 => ("CA", "California")
    case 5 => ("CO", "Colorado")
    case 6 => ("CT", "Connecticut")
    case 7 => ("DE", "Delaware")
    case 8 => ("FL", "Florida")
    case 9 => ("GA", "Georgia")
    case 10 => ("HI", "Hawaii")
    case 11 => ("ID", "Idaho")
    case 12 => ("IL", "Illinois")
    case 13 => ("IN", "Indiana")
    case 14 => ("IA", "Iowa")
    case 15 => ("KS", "Kansas")
    case 16 => ("KY", "Kentucky")
    case 17 => ("LA", "Louisiana")
    case 18 => ("ME", "Maine")
    case 19 => ("MD", "Maryland")
    case 20 => ("MA", "Massachusetts")
    case 21 => ("MI", "Michigan")
    case 22 => ("MN", "Minnesota")
    case 23 => ("MS", "Mississippi")
    case 24 => ("MO", "Missouri")
    case 25 => ("MT", "Montana")
    case 26 => ("NE", "Nebraska")
    case 27 => ("NV", "Nevada")
    case 28 => ("NH", "New Hampshire")
    case 29 => ("NJ", "New Jersey")
    case 30 => ("NM", "New Mexico")
    case 31 => ("NY", "New York")
    case 32 => ("NC", "North Carolina")
    case 33 => ("ND", "North Dakota")
    case 34 => ("OH", "Ohio")
    case 35 => ("OK", "Oklahoma")
    case 36 => ("OR", "Oregon")
    case 37 => ("PA", "Pennsylvania")
    case 38 => ("RI", "Rhode Island")
    case 39 => ("SC", "South Carolina")
    case 40 => ("SD", "South Dakota")
    case 41 => ("TN", "Tennessee")
    case 42 => ("TX", "Texas")
    case 43 => ("UT", "Utah")
    case 44 => ("VT", "Vermont")
    case 45 => ("VA", "Virginia")
    case 46 => ("WA", "Washington")
    case 47 => ("WV", "West Virginia")
    case 48 => ("WI", "Wisconsin")
    case _ => ("WY", "Wyoming")
  }

  /** The rows of `US_STATES`, in the source's order. */
  function StatesTable(): (t: seq<(string, string)>)
    ensures |t| == 50 && forall i | 0 <= i < 50 :: t[i] == StateEntry(i)
  {
    seq(50, i requires 0 <= i < 50 => StateEntry(i))
  }

  /** `US_STATES`: (code, name) pairs of the fifty states. */
  const US_STATES: seq<(string, string)> := StatesTable()

  /** Inverse of the code column: the row a two-letter code comes from. */
  function CodeIndex(c: string): int
    requires |c| == 2
  {
    match c[0]
    case 'A' => (match c[1] case 'L' => 0 case 'K' => 1 case 'Z' => 2 case 'R' => 3 case _ => -1)
    case 'C' => (match c[1] case 'A' => 4 case 'O' => 5 case 'T' => 6 case _ => -1)
    case 'D' => (match c[1] case 'E' => 7 case _ => -1)
    case 'F' => (match c[1] case 'L' => 8 case _ => -1)
    case 'G' => (match c[1] case 'A' => 9 case _ => -1)
    case 'H' => (match c[1] case 'I' => 10 case _ => -1)
    case 'I' => (match c[1] case 'D' => 11 case 'L' => 12 case 'N' => 13 case 'A' => 14 case _ => -1)
    case 'K' => (match c[1] case 'S' => 15 case 'Y' => 16 case _ => -1)
    case 'L' => (match c[1] case 'A' => 17 case _ => -1)
    case 'M' => (match c[1] case 'E' => 18 case 'D' => 19 case 'A' => 20 case 'I' => 21 case 'N' => 22 case 'S' => 23 case 'O' => 24 case 'T' => 25 case _ => -1)
    case 'N' => (match c[1] case 'E' => 26 case 'V' => 27 case 'H' => 28 case 'J' => 29 case 'M' => 30 case 'Y' => 31 case 'C' => 32 case 'D' => 33 case _ => -1)
    case 'O' => (match c[1] case 'H' => 34 case 'K' => 35 case 'R' => 36 case _ => -1)
    case 'P' => (match c[1] case 'A' => 37 case _ => -1)
    case 'R' => (match c[1] case 'I' => 38 case _ => -1)
    case 'S' => (match c[1] case 'C' => 39 case 'D' => 40 case _ => -1)
    case 'T' => (match c[1] case 'N' => 41 case 'X' => 42 case _ => -1)
    case 'U' => (match c[1] case 'T' => 43 case _ => -1)
    case 'V' => (match c[1] case 'T' => 44 case 'A' => 45 case _ => -1)
    case 'W' => (match c[1] case 'A' => 46 case 'V' => 47 case 'I' => 48 case 'Y' => 49 case _ => -1)
    case _ => -1
  }

  /** Character `k` of `s` lower-cased, or a blank past its end. */
  function LowerAt(s: string, k: nat): char {
    if k < |s| then LowerChar(s[k]) else ' '
  }

  /** Inverse of the name column, up to case: the row a state name comes from. */
  function NameIndex(s: string): int {
    (if LowerAt(s, 0) == 'a' then (if LowerAt(s, 3) == 'b' then 0
        else if LowerAt(s, 3) == 's' then 1
        else if LowerAt(s, 3) == 'z' then 2
        else if LowerAt(s, 3) == 'a' then 3
        else -1)
      else if LowerAt(s, 0) == 'c' then (if |s| == 10 then 4
        else if |s| == 8 then 5
        else if |s| == 11 then 6
        else -1)
      else if LowerAt(s, 0) == 'd' then 7
      else if LowerAt(s, 0) == 'f' then 8
      else if LowerAt(s, 0) == 'g' then 9
      else if LowerAt(s, 0) == 'h' then 10
      else if LowerAt(s, 0) == 'i' then (if |s| == 5 then 11
        else if |s| == 8 then 12
        else if |s| == 7 then 13
        else if |s| == 4 then 14
        else -1)
      else if LowerAt(s, 0) == 'k' then (if |s| == 6 then 15
        else if |s| == 8 then 16
        else -1)
      else if LowerAt(s, 0) == 'l' then 17
      else if LowerAt(s, 0) == 'm' then (if |s| == 5 then 18
        else if |s| == 8 then (if LowerAt(s, 2) == 'r' then 19
          else if LowerAt(s, 2) == 'c' then 21
          else if LowerAt(s, 2) == 's' then 24
          else -1)
        else if |s| == 13 then 20
        else if |s| == 9 then 22
        else if |s| == 11 then 23
        else if |s| == 7 then 25
        else -1)
      else if LowerAt(s, 0) == 'n' then (if |s| == 8 then (if LowerAt(s, 2) == 'b' then 26
          else if LowerAt(s, 2) == 'w' then 31
          else -1)
        else if |s| == 6 then 27
        else if |s| == 13 then 28
        else if |s| == 10 then (if LowerAt(s, 4) == 'j' then 29
          else if LowerAt(s, 4) == 'm' then 30
          else -1)
        else if |s| == 14 then 32
        else if |s| == 12 then 33
        else -1)
      else if LowerAt(s, 0) == 'o' then (if |s| == 4 then 34
        else if |s| == 8 then 35
        else if |s| == 6 then 36
        else -1)
      else if LowerAt(s, 0) == 'p' then 37
      else if LowerAt(s, 0) == 'r' then 38
      else if LowerAt(s, 0) == 's' then (if |s| == 14 then 39
        else if |s| == 12 then 40
        else -1)
      else if LowerAt(s, 0) == 't' then (if |s| == 9 then 41
        else if |s| == 5 then 42
        else -1)
      else if LowerAt(s, 0) == 'u' then 43
      else if LowerAt(s, 0) == 'v' then (if |s| == 7 then 44
        else if |s| == 8 then 45
        else -1)
      else if LowerAt(s, 0) == 'w' then (if |s| == 10 then 46
        else if |s| == 13 then 47
        else if |s| == 9 then 48
        else if |s| == 7 then 49
        else -1)
      else -1)
  }

  lemma CodeIndexInverts()
    ensures forall i: nat | i < 50 :: |StateEntry(i).0| == 2 && CodeIndex(StateEntry(i).0) == i
  {
    CodeIndexRows0();
    CodeIndexRows1();
    CodeIndexRows2();
    CodeIndexRows3();
    CodeIndexRows4();
  }

  lemma CodeIndexRows0()
    ensures CodeIndex("AL") == 0
    ensures CodeIndex("AK") == 1
    ensures CodeIndex("AZ") == 2
    ensures CodeIndex("AR") == 3
    ensures CodeIndex("CA") == 4
    ensures CodeIndex("CO") == 5
    ensures CodeIndex("CT") == 6
    ensures CodeIndex("DE") == 7
    ensures CodeIndex("FL") == 8
    ensures CodeIndex("GA") == 9
  {
  }

  lemma CodeIndexRows1()
    ensures CodeIndex("HI") == 10
    ensures CodeIndex("ID") == 11
    ensures CodeIndex("IL") == 12
    ensures CodeIndex("IN") == 13
    ensures CodeIndex("IA") == 14
    ensures CodeIndex("KS") == 15
    ensures CodeIndex("KY") == 16
    ensures CodeIndex("LA") == 17
    ensures CodeIndex("ME") == 18
    ensures CodeIndex("MD") == 19
  {
  }

  lemma CodeIndexRows2()
    ensures CodeIndex("MA") == 20
    ensures CodeIndex("MI") == 21
    ensures CodeIndex("MN") == 22
    ensures CodeIndex("MS") == 23
    ensures CodeIndex("MO") == 24
    ensures CodeIndex("MT") == 25
    ensures CodeIndex("NE") == 26
    ensures CodeIndex("NV") == 27
    ensures CodeIndex("NH") == 28
    ensures CodeIndex("NJ") == 29
  {
  }

  lemma CodeIndexRows3()
    ensures CodeIndex("NM") == 30
    ensures CodeIndex("NY") == 31
    ensures CodeIndex("NC") == 32
    ensures CodeIndex("ND") == 33
    ensures CodeIndex("OH") == 34
    ensures CodeIndex("OK") == 35
    ensures CodeIndex("OR") == 36
    ensures CodeIndex("PA") == 37
    ensures CodeIndex("RI") == 38
    ensures CodeIndex("SC") == 39
  {
  }

  lemma CodeIndexRows4()
    ensures CodeIndex("SD") == 40
    ensures CodeIndex("TN") == 41
    ensures CodeIndex("TX") == 42
    ensures CodeIndex("UT") == 43
    ensures CodeIndex("VT") == 44
    ensures CodeIndex("VA") == 45
    ensures CodeIndex("WA") == 46
    ensures CodeIndex("WV") == 47
    ensures CodeIndex("WI") == 48
    ensures CodeIndex("WY") == 49
  {
  }

  lemma NameIndexInverts()
    ensures forall i: nat | i < 50 :: NameIndex(StateEntry(i).1) == i
  {
    NameIndexRows0();
    NameIndexRows1();
    NameIndexRows2();
    NameIndexRows3();
    NameIndexRows4();
  }

  lemma NameIndexRows0()
    ensures NameIndex("Alabama") == 0
    ensures NameIndex("Alaska") == 1
    ensures NameIndex("Arizona") == 2
    ensures NameIndex("Arkansas") == 3
    ensures NameIndex("California") == 4
    ensures NameIndex("Colorado") == 5
    ensures NameIndex("Connecticut") == 6
    ensures NameIndex("Delaware") == 7
    ensures NameIndex("Florida") == 8
    ensures NameIndex("Georgia") == 9
  {
  }

  lemma NameIndexRows1()
    ensures NameIndex("Hawaii") == 10
    ensures NameIndex("Idaho") == 11
    ensures NameIndex("Illinois") == 12
    ensures NameIndex("Indiana") == 13
    ensures NameIndex("Iowa") == 14
    ensures NameIndex("Kansas") == 15
    ensures NameIndex("Kentucky") == 16
    ensures NameIndex("Louisiana") == 17
    ensures NameIndex("Maine") == 18
    ensures NameIndex("Maryland") == 19
  {
  }

  lemma NameIndexRows2()
    ensures NameIndex("Massachusetts") == 20
    ensures NameIndex("Michigan") == 21
    ensures NameIndex("Minnesota") == 22
    ensures NameIndex("Mississippi") == 23
    ensures NameIndex("Missouri") == 24
    ensures NameIndex("Montana") == 25
    ensures NameIndex("Nebraska") == 26
    ensures NameIndex("Nevada") == 27
    ensures NameIndex("New Hampshire") == 28
    ensures NameIndex("New Jersey") == 29
  {
  }

  lemma NameIndexRows3()
    ensures NameIndex("New Mexico") == 30
    ensures NameIndex("New York") == 31
    ensures NameIndex("North Carolina") == 32
    ensures NameIndex("North Dakota") == 33
    ensures NameIndex("Ohio") == 34
    ensures NameIndex("Oklahoma") == 35
    ensures NameIndex("Oregon") == 36
    ensures NameIndex("Pennsylvania") == 37
    ensures NameIndex("Rhode Island") == 38
    ensures NameIndex("South Carolina") == 39
  {
  }

  lemma NameIndexRows4()
    ensures NameIndex("South Dakota") == 40
    ensures NameIndex("Tennessee") == 41
    ensures NameIndex("Texas") == 42
    ensures NameIndex("Utah") == 43
    ensures NameIndex("Vermont") == 44
    ensures NameIndex("Virginia") == 45
    ensures NameIndex("Washington") == 46
    ensures NameIndex("West Virginia") == 47
    ensures NameIndex("Wisconsin") == 48
    ensures NameIndex("Wyoming") == 49
  {
  }

  /** `NameIndex` sees a name only through its lower-cased form. */
  lemma NameIndexOfLower(a: string, b: string)
    requires Lower(a) == Lower(b)
    ensures NameIndex(a) == NameIndex(b)
  {
    assert |a| == |b|;
    assert forall k: nat :: LowerAt(a, k) == LowerAt(b, k) by {
      forall k: nat ensures LowerAt(a, k) == LowerAt(b, k) {
        if k < |a| { assert Lower(a)[k] == Lower(b)[k]; }
      }
    }
  }

  /** The table has 50 rows, no code twice and no lower-cased name twice. */
  lemma StatesDistinct()
    ensures |US_STATES| == 50
    ensures forall i, j | 0 <= i < j < |US_STATES| :: US_STATES[i].0 != US_STATES[j].0
    ensures forall i, j | 0 <= i < j < |US_STATES| :: Lower(US_STATES[i].1) != Lower(US_STATES[j].1)
  {
    CodeIndexInverts();
    NameIndexInverts();
    assert forall i | 0 <= i < |US_STATES| :: US_STATES[i] == StateEntry(i);
    forall i, j | 0 <= i < j < |US_STATES| ensures Lower(US_STATES[i].1) != Lower(US_STATES[j].1) {
      if Lower(US_STATES[i].1) == Lower(US_STATES[j].1) {
        NameIndexOfLower(US_STATES[i].1, US_STATES[j].1);
      }
    }
  }

  /**
   * `{name.lower(): code for code, name in US_STATES}`, built by both ingesters:
   * every lower-cased name is a key mapped to its row's code, and nothing else is a key.
   */
  function StateToCode(): (m: map<string, string>)
    ensures forall i | 0 <= i < |US_STATES| ::
      Lower(US_STATES[i].1) in m && m[Lower(US_STATES[i].1)] == US_STATES[i].0
    ensures forall k | k in m :: exists i | 0 <= i < |US_STATES| :: k == Lower(US_STATES[i].1)
  {
    StatesDistinct();
    map i | 0 <= i < |US_STATES| :: Lower(US_STATES[i].1) := US_STATES[i].0
  }

  /** The map has one key per state. */
  lemma StateToCodeSize()
    ensures |StateToCode()| == 50
  {
    StatesDistinct();
    var m := StateToCode();
    assert m.Keys == set i | 0 <= i < |US_STATES| :: Lower(US_STATES[i].1);
    CardinalityOfImage(|US_STATES|);
  }

  /** No two names map to the same code. */
  lemma StateToCodeInjective(a: string, b: string)
    requires a in StateToCode() && b in StateToCode() && a != b
    ensures StateToCode()[a] != StateToCode()[b]
  {
    StatesDistinct();
    var m := StateToCode();
    var i :| 0 <= i < |US_STATES| && a == Lower(US_STATES[i].1);
    var j :| 0 <= j < |US_STATES| && b == Lower(US_STATES[j].1);
    assert m[a] == US_STATES[i].0 && m[b] == US_STATES[j].0;
    if i < j {
      assert US_STATES[i].0 != US_STATES[j].0;
    } else {
      assert US_STATES[j].0 != US_STATES[i].0;
    }
  }

  ghost predicate StatesTableFacts() {
    && |US_STATES| == 50
    && (forall i, j | 0 <= i < j < |US_STATES| :: US_STATES[i].0 != US_STATES[j].0)
    && (forall i, j | 0 <= i < j < |US_STATES| :: Lower(US_STATES[i].1) != Lower(US_STATES[j].1))
  }

  /** The first `n` lower-cased names form a set of `n` elements. */
  lemma {:induction false} CardinalityOfImage(n: nat)
    requires StatesTableFacts() && n <= |US_STATES|
    ensures |set i | 0 <= i < n :: Lower(US_STATES[i].1)| == n
  {
    if n > 0 {
      CardinalityOfImage(n - 1);
      var prev := set i | 0 <= i < n - 1 :: Lower(US_STATES[i].1);
      var next := set i | 0 <= i < n :: Lower(US_STATES[i].1);
      assert next == prev + {Lower(US_STATES[n - 1].1)};
      assert Lower(US_STATES[n - 1].1) !in prev;
    }
  }

  /**
   * `state_to_code.get(name.lower())`: the code of a state given by name in any
   * ASCII case, or `None` for a name not in the table.
   */
  function StateCode(name: string): (r: Option<string>)
    ensures r.Some? <==> exists i | 0 <= i < |US_STATES| :: Lower(name) == Lower(US_STATES[i].1)
    ensures forall i | 0 <= i < |US_STATES| && Lower(name) == Lower(US_STATES[i].1) :: r == Some(US_STATES[i].0)
  {
    Get(StateToCode(), Lower(name))
  }

  /** A code found is never empty, so Python treats it as true. */
  lemma StateCodeNonEmpty(name: string)
    ensures StateCode(name).Some? ==> |StateCode(name).value| == 2
  {
    CodeIndexInverts();
    assert forall i | 0 <= i < |US_STATES| :: US_STATES[i] == StateEntry(i);
  }

  /**
   * The module's globals (the names `update_config` can reach), with their values as text.
   * `update_config` reassigns entries of this dictionary in a loop.
   */
  class Globals {
    var vars: map<string, string>

    constructor (initial: map<string, string>)
      ensures vars == initial
    {
      vars := initial;
    }

    /**
     * `update_config(**kwargs)`: for each keyword in order, a value that is not `None`
     * replaces the global of that name, if there is one; other keywords are ignored.
     */
    method UpdateConfig(kwargs: seq<(string, Option<string>)>)
      modifies this
      ensures vars == Updated(old(vars), kwargs)
    {
      var i := 0;
      while i < |kwargs|
        invariant 0 <= i <= |kwargs|
        invariant Updated(old(vars), kwargs) == Updated(vars, kwargs[i..])
      {
        var (key, value) := kwargs[i];
        assert kwargs[i..] == [kwargs[i]] + kwargs[i + 1..];
        if key in vars && value.Some? {
          vars := vars[key := value.value];
        }
        i := i + 1;
      }
    }
  }

  /** The globals after `update_config(**kwargs)`, starting from `g`. */
  function Updated(g: map<string, string>, kwargs: seq<(string, Option<string>)>): map<string, string>
    decreases |kwargs|
  {
    if kwargs == [] then g
    else
      var (key, value) := kwargs[0];
      Updated(if key in g && value.Some? then g[key := value.value] else g, kwargs[1..])
  }

  /** The last non-`None` value given for `key`, if any. */
  function LastValue(kwargs: seq<(string, Option<string>)>, key: string): Option<string>
    decreases |kwargs|
  {
    if kwargs == [] then None
    else
      var later := LastValue(kwargs[1..], key);
      if later.Some? then later
      else if kwargs[0].0 == key && kwargs[0].1.Some? then kwargs[0].1
      else None
  }

  /**
   * `update_config` adds no global and removes none; a global takes the last value
   * (other than `None`) passed for it and every other global keeps its value.
   */
  lemma {:induction false} UpdatedFrame(g: map<string, string>, kwargs: seq<(string, Option<string>)>)
    ensures Updated(g, kwargs).Keys == g.Keys
    ensures forall k | k in g :: Updated(g, kwargs)[k] == LastValue(kwargs, k).GetOr(g[k])
    decreases |kwargs|
  {
    if kwargs != [] {
      var (key, value) := kwargs[0];
      var g' := if key in g && value.Some? then g[key := value.value] else g;
      UpdatedFrame(g', kwargs[1..]);
    }
  }
}
