/** `clean_archive`: choose the one cleaning strategy whose name matches the
    configured pattern, or fail with the number of names that matched. */
module Dispatch {

  import opened Options

  /** The strategies clean.py knows, in the order of its `cleaners` list. */
  datatype Cleaner = PowerWash | DeepClean | CleanSimple | CleanIterative

  function Name(c: Cleaner): string
  {
    match c
    case PowerWash => "power_wash"
    case DeepClean => "deep_clean"
    case CleanSimple => "clean_simple"
    case CleanIterative => "clean_iterative"
  }

  const CLEANERS: seq<Cleaner> := [PowerWash, DeepClean, CleanSimple, CleanIterative]

  /** Whether a pattern is found in a name (`re.search(pattern, name)`). */
  type Search = (string, string) -> bool

  predicate Distinct(s: seq<Cleaner>)
  {
    forall i, j :: 0 <= i < j < |s| ==> s[i] != s[j]
  }

  /** The cleaners of `cs` whose name matches, in their order. */
  function Filter(cs: seq<Cleaner>, pattern: string, search: Search): (r: seq<Cleaner>)
    ensures forall c :: c in r <==> c in cs && search(pattern, Name(c))
    ensures Distinct(cs) ==> Distinct(r)
  {
    if cs == [] then []
    else
      var rest := Filter(cs[1..], pattern, search);
      assert forall c :: c in cs[1..] ==> c in cs;
      if search(pattern, Name(cs[0])) then [cs[0]] + rest else rest
  }

  /** The known cleaners whose name matches the pattern. */
  function MatchSet(pattern: string, search: Search): set<Cleaner>
  {
    set c | c in CLEANERS && search(pattern, Name(c))
  }

  /** A list without repetitions has as many elements as the set of them. */
  lemma {:induction false} DistinctCard(r: seq<Cleaner>)
    requires Distinct(r)
    ensures |set c | c in r| == |r|
  {
    if r != [] {
      DistinctCard(r[1..]);
      assert (set c | c in r) == (set c | c in r[1..]) + {r[0]};
      assert r[0] !in r[1..];
    }
  }

  /** How `clean_archive` ends. */
  datatype Selection =
    | NothingToDo                                // no strategy configured
    | Run(cleaner: Cleaner)                      // the one matching cleaner is applied
    | CleanError(pattern: string, matches: nat)  // "Bad cleaner selection. '<pattern>' has <n> matches."

  /** The pattern `clean_archive` uses: its argument, else the configured one. */
  function Pattern(cleanRe: Option<string>, configured: Option<string>): Option<string>
  {
    if cleanRe.Some? then cleanRe else configured
  }

  /** `clean_archive`'s choice. With no pattern it does nothing; with one it
      runs a cleaner iff exactly one known cleaner matches, and that is the
      one it runs; otherwise it reports how many matched (zero or at least
      two). */
  function CleanArchive(cleanRe: Option<string>, configured: Option<string>, search: Search): (r: Selection)
    ensures r.NothingToDo? <==> cleanRe.None? && configured.None?
    ensures Pattern(cleanRe, configured).Some? ==>
              var p := Pattern(cleanRe, configured).value;
              && (r.Run? <==> |MatchSet(p, search)| == 1)
              && (r.Run? ==> MatchSet(p, search) == {r.cleaner})
              && (r.CleanError? ==> r.pattern == p && r.matches == |MatchSet(p, search)| != 1)
  {
    match Pattern(cleanRe, configured)
    case None => NothingToDo
    case Some(p) =>
      var matching := Filter(CLEANERS, p, search);
      DistinctCard(matching);
      assert (set c | c in matching) == MatchSet(p, search);
      if |matching| == 1 then
        assert matching[0] in matching;
        Run(matching[0])
      else
        CleanError(p, |matching|)
  }

  /** The name holds the pattern at offset `k`. */
  predicate OccursAt(pattern: string, name: string, k: nat)
  {
    k + |pattern| <= |name| && name[k..k + |pattern|] == pattern
  }

  /** `re.search` for a pattern without regular-expression metacharacters:
      the pattern occurs as a contiguous part of the name. */
  predicate Occurs(pattern: string, name: string)
  {
    exists k: nat | k <= |name| :: OccursAt(pattern, name, k)
  }

  /** A pattern whose first character is absent from the name never occurs in it. */
  lemma FirstCharAbsent(pattern: string, name: string)
    requires pattern != [] && pattern[0] !in name
    ensures !Occurs(pattern, name)
  {
    forall k: nat
      ensures !OccursAt(pattern, name, k)
    {
      if k + |pattern| <= |name| {
        assert name[k..k + |pattern|][0] == name[k] && name[k] in name;
      }
    }
  }

  /** Selecting by a pattern that matches deep_clean, clean_simple and
      clean_iterative but not power_wash fails, reporting three matches. */
  lemma ThreeMatchesFail(p: string, search: Search)
    requires !search(p, "power_wash") && search(p, "deep_clean")
    requires search(p, "clean_simple") && search(p, "clean_iterative")
    ensures CleanArchive(Some(p), None, search) == CleanError(p, 3)
  {
    assert MatchSet(p, search) == {DeepClean, CleanSimple, CleanIterative};
  }

  /** Selecting by a pattern that matches power_wash and no other name runs
      power_wash. */
  lemma OnlyPowerWashMatches(p: string, search: Search)
    requires search(p, "power_wash") && !search(p, "deep_clean")
    requires !search(p, "clean_simple") && !search(p, "clean_iterative")
    ensures CleanArchive(Some(p), None, search) == Run(PowerWash)
  {
    assert MatchSet(p, search) == {PowerWash};
  }

  /** Selecting by a pattern that matches every name fails, reporting four
      matches. */
  lemma AllMatchFail(p: string, search: Search)
    requires forall c: Cleaner :: search(p, Name(c))
    ensures CleanArchive(Some(p), None, search) == CleanError(p, 4)
  {
    assert MatchSet(p, search) == {PowerWash, DeepClean, CleanSimple, CleanIterative};
  }

  /** "clean" occurs in three of the names, so selecting by it is an error
      that reports three matches. */
  lemma PatternCleanIsAmbiguous()
    ensures CleanArchive(Some("clean"), None, Occurs) == CleanError("clean", 3)
  {
    FirstCharAbsent("clean", "power_wash");
    assert OccursAt("clean", "deep_clean", 5);
    assert OccursAt("clean", "clean_simple", 0);
    assert OccursAt("clean", "clean_iterative", 0);
    ThreeMatchesFail("clean", Occurs);
  }

  /** "wash" occurs only in power_wash, so it selects that cleaner. */
  lemma PatternWashSelectsPowerWash()
    ensures CleanArchive(Some("wash"), None, Occurs) == Run(PowerWash)
  {
    assert OccursAt("wash", "power_wash", 6);
    FirstCharAbsent("wash", "deep_clean");
    FirstCharAbsent("wash", "clean_simple");
    FirstCharAbsent("wash", "clean_iterative");
    OnlyPowerWashMatches("wash", Occurs);
  }

  /** The empty pattern occurs in every name: four matches, an error. */
  lemma EmptyPatternMatchesAll()
    ensures CleanArchive(Some(""), None, Occurs) == CleanError("", 4)
  {
    forall c: Cleaner
      ensures Occurs("", Name(c))
    {
      assert OccursAt("", Name(c), 0);
    }
    AllMatchFail("", Occurs);
  }
}
