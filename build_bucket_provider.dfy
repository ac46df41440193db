/**
 * How the integration-test tasks of one build bucket are told which tests to run.
 *
 * A bucket provider is chosen once per build from three project properties:
 * `includeTestClasses` and `excludeTestClasses` restrict every test task to (or away from) the
 * test classes listed in a properties file of `testClass=sourceSet` lines, and
 * `onlyTestGradleMajorVersion` enables only the cross-version test tasks whose Gradle version
 * lies in one major-version window. With none of them set, test tasks are left alone.
 */
module BuildBucketProvider {
  import opened Wrappers
  import GradleVersion

  /* ---------------------------------------------------------------------------------------
   * Project properties
   * --------------------------------------------------------------------------------------- */

  const IncludeTestClasses := "includeTestClasses"
  const ExcludeTestClasses := "excludeTestClasses"
  const OnlyTestGradleMajorVersion := "onlyTestGradleMajorVersion"

  /**
   * What the provider reads from the Gradle project: its string-valued properties and the
   * contents of the two class-list files under the root project's build directory, as the
   * `Properties` table they load into (test class -> source set), or None when reading fails.
   */
  datatype Project = Project(
    properties: map<string, string>,
    includeTestClassesFile: Option<map<string, string>>,
    excludeTestClassesFile: Option<map<string, string>>)

  /** The value of a project property, or "" when the project does not define it. */
  function StringPropertyOrEmpty(project: Project, name: string): string
  {
    if name in project.properties then project.properties[name] else ""
  }

  /** Kotlin's `Char.isWhitespace`: Java whitespace or a Unicode space separator. */
  predicate IsWhitespace(c: char)
  {
    c == '\t' || c == '\n' || c == '\U{000B}' || c == '\U{000C}' || c == '\r'
    || '\U{001C}' <= c <= '\U{001F}'
    || c == ' ' || c == '\U{00A0}' || c == '\U{1680}' || '\U{2000}' <= c <= '\U{200A}'
    || c == '\U{2028}' || c == '\U{2029}' || c == '\U{202F}' || c == '\U{205F}' || c == '\U{3000}'
  }

  /** Kotlin's `isBlank`: empty, or whitespace only. */
  predicate IsBlank(s: string)
  {
    forall k :: 0 <= k < |s| ==> IsWhitespace(s[k])
  }

  /** Kotlin's `trimStart()`: s without its leading whitespace. */
  function TrimStart(s: string): string
  {
    if s != [] && IsWhitespace(s[0]) then TrimStart(s[1..]) else s
  }

  /** A string is blank exactly when trimming its leading whitespace leaves nothing. */
  lemma {:induction false} BlankIffTrimmedEmpty(s: string)
    ensures IsBlank(s) <==> TrimStart(s) == []
  {
    if s != [] && IsWhitespace(s[0]) {
      BlankIffTrimmedEmpty(s[1..]);
      assert IsBlank(s) <==> IsBlank(s[1..]) by {
        if IsBlank(s[1..]) {
          forall k | 0 <= k < |s| ensures IsWhitespace(s[k]) {
            if k > 0 {
              assert s[k] == s[1..][k - 1];
            }
          }
        }
      }
    }
  }

  /* ---------------------------------------------------------------------------------------
   * Providers and their selection
   * --------------------------------------------------------------------------------------- */

  /** The four implementations of the provider interface, with the state each one holds. */
  datatype Provider =
    | IncludeTestClassProvider(includeTestClasses: map<string, seq<string>>)
    | ExcludeTestClassProvider(excludeTestClasses: map<string, seq<string>>)
    | CrossVersionBucketProvider(onlyTestGradleMajorVersion: string)
    | NoOpTestClassProvider

  datatype ProviderKind = IncludeKind | ExcludeKind | CrossVersionKind | NoOpKind

  /**
   * Which provider a project selects: the first of `includeTestClasses`, `excludeTestClasses`
   * and `onlyTestGradleMajorVersion` that is not blank decides; with all three blank, none applies.
   */
  function SelectedKind(project: Project): (kind: ProviderKind)
    ensures kind == IncludeKind <==> !IsBlank(StringPropertyOrEmpty(project, IncludeTestClasses))
    ensures kind == ExcludeKind <==>
              IsBlank(StringPropertyOrEmpty(project, IncludeTestClasses))
              && !IsBlank(StringPropertyOrEmpty(project, ExcludeTestClasses))
    ensures kind == CrossVersionKind <==>
              IsBlank(StringPropertyOrEmpty(project, IncludeTestClasses))
              && IsBlank(StringPropertyOrEmpty(project, ExcludeTestClasses))
              && !IsBlank(StringPropertyOrEmpty(project, OnlyTestGradleMajorVersion))
    ensures kind == NoOpKind <==>
              IsBlank(StringPropertyOrEmpty(project, IncludeTestClasses))
              && IsBlank(StringPropertyOrEmpty(project, ExcludeTestClasses))
              && IsBlank(StringPropertyOrEmpty(project, OnlyTestGradleMajorVersion))
  {
    if !IsBlank(StringPropertyOrEmpty(project, IncludeTestClasses)) then IncludeKind
    else if !IsBlank(StringPropertyOrEmpty(project, ExcludeTestClasses)) then ExcludeKind
    else if !IsBlank(StringPropertyOrEmpty(project, OnlyTestGradleMajorVersion)) then CrossVersionKind
    else NoOpKind
  }

  /**
   * What a first call of `getInstance` on `project` may produce: the selected provider, built
   * from the grouping of its class-list file, or the exception of reading a missing file.
   */
  ghost predicate Selects(project: Project, outcome: Result<Provider>)
  {
    match SelectedKind(project)
    case IncludeKind =>
      (match project.includeTestClassesFile
       case None => outcome.Err?
       case Some(props) =>
         outcome.Ok? && outcome.value.IncludeTestClassProvider?
         && IsGrouping(props, outcome.value.includeTestClasses))
    case ExcludeKind =>
      (match project.excludeTestClassesFile
       case None => outcome.Err?
       case Some(props) =>
         outcome.Ok? && outcome.value.ExcludeTestClassProvider?
         && IsGrouping(props, outcome.value.excludeTestClasses))
    case CrossVersionKind =>
      outcome == Ok(CrossVersionBucketProvider(StringPropertyOrEmpty(project, OnlyTestGradleMajorVersion)))
    case NoOpKind =>
      outcome == Ok(NoOpTestClassProvider)
  }

  /** The companion object of the provider interface, which caches the provider it selects. */
  class BuildBucketProviderCompanion {
    var instance: Option<Provider>

    constructor ()
      ensures instance == None
    {
      instance := None;
    }

    /**
     * Returns the cached provider; only while nothing is cached are the project's properties
     * read and a provider selected and cached. A failed read leaves the cache empty.
     */
    method GetInstance(project: Project) returns (outcome: Result<Provider>)
      modifies this
      ensures old(instance).Some? ==> outcome == Ok(old(instance).value) && instance == old(instance)
      ensures old(instance).None? ==> Selects(project, outcome)
      ensures old(instance).None? ==> instance == if outcome.Ok? then Some(outcome.value) else None
    {
      if instance.None? {
        if !IsBlank(StringPropertyOrEmpty(project, IncludeTestClasses)) {
          match project.includeTestClassesFile
          case None =>
            return Err("include-test-classes.properties cannot be read");
          case Some(content) =>
            var classes := ReadTestClasses(content);
            instance := Some(IncludeTestClassProvider(classes));
        } else if !IsBlank(StringPropertyOrEmpty(project, ExcludeTestClasses)) {
          match project.excludeTestClassesFile
          case None =>
            return Err("exclude-test-classes.properties cannot be read");
          case Some(content) =>
            var classes := ReadTestClasses(content);
            instance := Some(ExcludeTestClassProvider(classes));
        } else if !IsBlank(StringPropertyOrEmpty(project, OnlyTestGradleMajorVersion)) {
          instance := Some(CrossVersionBucketProvider(StringPropertyOrEmpty(project, OnlyTestGradleMajorVersion)));
        } else {
          instance := Some(NoOpTestClassProvider);
        }
      }
      outcome := Ok(instance.value);
    }
  }

  /* ---------------------------------------------------------------------------------------
   * Grouping test classes by source set
   * --------------------------------------------------------------------------------------- */

  function Elements(s: seq<string>): set<string>
  {
    set x | x in s
  }

  predicate NoDuplicates(s: seq<string>)
  {
    forall a, b :: 0 <= a < b < |s| ==> s[a] != s[b]
  }

  /** The sum of the lengths of all lists in a map. */
  ghost function TotalLength(groups: map<string, seq<string>>): nat
    decreases |groups|
  {
    if groups == map[] then 0
    else
      var v :| v in groups;
      |groups[v]| + TotalLength(groups - {v})
  }

  /** No list is empty and no list repeats a class. */
  ghost predicate ListsAreProper(groups: map<string, seq<string>>)
  {
    forall v | v in groups :: groups[v] != [] && NoDuplicates(groups[v])
  }

  /** Every listed class is in the table, under the source set the table gives it. */
  ghost predicate ListedUnderOwnSourceSet(props: map<string, string>, groups: map<string, seq<string>>)
  {
    forall v, c | v in groups && c in groups[v] :: c in props && props[c] == v
  }

  /** Every class of the table is listed under its source set. */
  ghost predicate EveryClassListed(props: map<string, string>, groups: map<string, seq<string>>)
  {
    forall c | c in props :: props[c] in groups && c in groups[props[c]]
  }

  /**
   * `groups` lists each test class of `props` exactly once, under its own source set:
   * the keys are exactly the source sets named, no list is empty or repeats a class,
   * a class is listed under a source set exactly when `props` maps it there, and the
   * list lengths add up to the number of classes.
   */
  ghost predicate IsGrouping(props: map<string, string>, groups: map<string, seq<string>>)
  {
    && groups.Keys == props.Values
    && ListsAreProper(groups)
    && ListedUnderOwnSourceSet(props, groups)
    && EveryClassListed(props, groups)
    && TotalLength(groups) == |props|
  }

  /** Taking out any one list takes out its length, whichever list the sum happened to start with. */
  lemma {:induction false} TotalLengthRemove(groups: map<string, seq<string>>, x: string)
    requires x in groups
    ensures TotalLength(groups) == |groups[x]| + TotalLength(groups - {x})
    decreases |groups|
  {
    var v :| v in groups && TotalLength(groups) == |groups[v]| + TotalLength(groups - {v});
    if v != x {
      assert groups - {v} - {x} == groups - {x} - {v};
      assert |groups - {v}| < |groups|;
      TotalLengthRemove(groups - {v}, x);
      assert |groups - {x}| < |groups|;
      TotalLengthRemove(groups - {x}, v);
    }
  }

  /** Replacing (or adding) one list changes the sum by the difference in its length. */
  lemma TotalLengthUpdate(groups: map<string, seq<string>>, v: string, s: seq<string>)
    ensures TotalLength(groups[v := s]) == TotalLength(groups) - (if v in groups then |groups[v]| else 0) + |s|
  {
    var updated := groups[v := s];
    TotalLengthRemove(updated, v);
    assert updated - {v} == groups - {v};
    if v in groups {
      TotalLengthRemove(groups, v);
    } else {
      assert groups - {v} == groups;
    }
  }

  /** The list a class is appended to: the existing one for its source set, or a new one. */
  function ListFor(groups: map<string, seq<string>>, value: string): seq<string>
  {
    if value in groups then groups[value] else []
  }

  lemma ListedStep(done: map<string, string>, groups: map<string, seq<string>>, key: string, value: string)
    requires ListedUnderOwnSourceSet(done, groups) && key !in done
    ensures ListedUnderOwnSourceSet(done[key := value], groups[value := ListFor(groups, value) + [key]])
  {
  }

  lemma ProperStep(done: map<string, string>, groups: map<string, seq<string>>, key: string, value: string)
    requires ListedUnderOwnSourceSet(done, groups) && ListsAreProper(groups) && key !in done
    ensures ListsAreProper(groups[value := ListFor(groups, value) + [key]])
  {
  }

  lemma CompleteStep(done: map<string, string>, groups: map<string, seq<string>>, key: string, value: string)
    requires EveryClassListed(done, groups)
    ensures EveryClassListed(done[key := value], groups[value := ListFor(groups, value) + [key]])
  {
  }

  /** With proper lists listed under their own source sets, the keys are the table's source sets. */
  lemma KeysAreSourceSets(props: map<string, string>, groups: map<string, seq<string>>)
    requires ListsAreProper(groups) && ListedUnderOwnSourceSet(props, groups) && EveryClassListed(props, groups)
    ensures groups.Keys == props.Values
  {
    forall v | v in groups ensures v in props.Values {
      var c := groups[v][0];
      assert c in groups[v];
      assert props[c] in props.Values;
    }
    forall v | v in props.Values ensures v in groups {
      var c :| c in props && props[c] == v;
    }
  }

  lemma TotalStep(done: map<string, string>, groups: map<string, seq<string>>, key: string, value: string)
    requires TotalLength(groups) == |done| && key !in done
    ensures TotalLength(groups[value := ListFor(groups, value) + [key]]) == |done[key := value]|
  {
    TotalLengthUpdate(groups, value, ListFor(groups, value) + [key]);
    assert done[key := value].Keys == done.Keys + {key};
  }

  /** Adding one more class to the table extends the grouping by appending it to its source set's list. */
  lemma GroupingStep(done: map<string, string>, groups: map<string, seq<string>>, key: string, value: string)
    requires IsGrouping(done, groups)
    requires key !in done
    ensures IsGrouping(done[key := value], groups[value := ListFor(groups, value) + [key]])
  {
    var list := ListFor(groups, value) + [key];
    ListedStep(done, groups, key, value);
    ProperStep(done, groups, key, value);
    CompleteStep(done, groups, key, value);
    KeysAreSourceSets(done[key := value], groups[value := list]);
    TotalStep(done, groups, key, value);
  }

  /** The loop's bookkeeping: the table splits into the classes done so far and those remaining. */
  ghost predicate SplitsInto(properties: map<string, string>, remaining: set<string>, done: map<string, string>)
  {
    && remaining !! done.Keys && remaining + done.Keys == properties.Keys
    && forall c | c in done :: done[c] == properties[c]
  }

  lemma SplitsIntoOneMore(properties: map<string, string>, remaining: set<string>, done: map<string, string>, key: string)
    requires SplitsInto(properties, remaining, done) && key in remaining
    ensures key !in done
    ensures SplitsInto(properties, remaining - {key}, done[key := properties[key]])
  {
  }

  /**
   * Inverts a loaded `testClass=sourceSet` table into a map from each source set to the
   * test classes listed for it. The table is visited in no particular order.
   */
  method ReadTestClasses(properties: map<string, string>) returns (ret: map<string, seq<string>>)
    ensures IsGrouping(properties, ret)
  {
    ret := map[];
    var remaining := properties.Keys;
    ghost var done: map<string, string> := map[];
    assert TotalLength(ret) == 0;
    while remaining != {}
      invariant SplitsInto(properties, remaining, done)
      invariant IsGrouping(done, ret)
      decreases |remaining|
    {
      var key :| key in remaining;
      var value := properties[key];
      var list := if value in ret then ret[value] else [];
      list := list + [key];
      SplitsIntoOneMore(properties, remaining, done, key);
      GroupingStep(done, ret, key, value);
      ret := ret[value := list];
      remaining := remaining - {key};
      done := done[key := value];
    }
    assert done == properties;
  }

  /** An include or exclude provider's classes for a source set are those the table sends there. */
  lemma ClassesOfSourceSet(props: map<string, string>, groups: map<string, seq<string>>, sourceSetName: string)
    requires IsGrouping(props, groups)
    ensures ClassesOf(groups, sourceSetName) == set c | c in props && props[c] == sourceSetName
  {
  }

  /* ---------------------------------------------------------------------------------------
   * The cross-version window
   * --------------------------------------------------------------------------------------- */

  const GradlePrefix := "gradle"
  const CrossVersionTestSuffix := "CrossVersionTest"

  /** The characters a regular-expression `.` does not match on the JVM. */
  predicate IsLineTerminator(c: char)
  {
    c == '\n' || c == '\r' || c == '\U{0085}' || c == '\U{2028}' || c == '\U{2029}'
  }

  predicate PrefixAt(name: string, i: nat)
  {
    i + |GradlePrefix| <= |name| && name[i..i + |GradlePrefix|] == GradlePrefix
  }

  predicate SuffixAt(name: string, j: nat)
  {
    j + |CrossVersionTestSuffix| <= |name| && name[j..j + |CrossVersionTestSuffix|] == CrossVersionTestSuffix
  }

  /**
   * The pattern `gradle(.+)CrossVersionTest` matches `name` from index i, with its group
   * ending at index j (where the suffix begins).
   */
  predicate MatchesAt(name: string, i: int, j: int)
  {
    && 0 <= i && i + |GradlePrefix| < j
    && PrefixAt(name, i)
    && SuffixAt(name, j)
    && forall k :: i + |GradlePrefix| <= k < j ==> !IsLineTerminator(name[k])
  }

  /** The match `find` reports: the leftmost start, and at that start the longest group. */
  ghost predicate IsFirstMatch(name: string, i: int, j: int)
  {
    MatchesAt(name, i, j)
    && forall i', j' :: MatchesAt(name, i', j') ==> i < i' || (i == i' && j' <= j)
  }

  /** The end of the run of characters that `.` matches, starting at k. */
  function RunEnd(name: string, k: nat): (e: nat)
    requires k <= |name|
    ensures k <= e <= |name|
    ensures forall m :: k <= m < e ==> !IsLineTerminator(name[m])
    ensures e < |name| ==> IsLineTerminator(name[e])
    decreases |name| - k
  {
    if k == |name| || IsLineTerminator(name[k]) then k else RunEnd(name, k + 1)
  }

  /** Backtracking of the greedy group: the last index in [lo, hi] where the suffix begins. */
  function LastSuffixAt(name: string, lo: nat, hi: nat): (r: Option<nat>)
    ensures r.Some? ==> lo <= r.value <= hi && SuffixAt(name, r.value)
    ensures forall j :: lo <= j <= hi && SuffixAt(name, j) ==> r.Some? && j <= r.value
    decreases hi
  {
    if hi < lo then None
    else if SuffixAt(name, hi) then Some(hi)
    else if hi == lo then None
    else LastSuffixAt(name, lo, hi - 1)
  }

  /** The first match whose start is at index i or later. */
  function MatchFrom(name: string, i: nat): (r: Option<(nat, nat)>)
    ensures r.Some? ==> i <= r.value.0 && MatchesAt(name, r.value.0, r.value.1)
    ensures r.Some? ==> forall i', j' :: i <= i' && MatchesAt(name, i', j') ==>
                          r.value.0 < i' || (r.value.0 == i' && j' <= r.value.1)
    ensures r.None? ==> forall i', j' :: i <= i' ==> !MatchesAt(name, i', j')
    decreases |name| - i
  {
    if i + |GradlePrefix| >= |name| then None
    else if PrefixAt(name, i) then
      var e := RunEnd(name, i + |GradlePrefix|);
      match LastSuffixAt(name, i + |GradlePrefix| + 1, e)
      case Some(j) => Some((i, j))
      case None => MatchFrom(name, i + 1)
    else MatchFrom(name, i + 1)
  }

  /**
   * The Gradle version in the name of a cross-version test task (`gradle4.10.3CrossVersionTest`
   * gives "4.10.3"): the group of the first match of `gradle(.+)CrossVersionTest`, or None.
   */
  function ExtractTestTaskGradleVersion(name: string): (r: Option<string>)
    ensures r.None? <==> forall i, j :: !MatchesAt(name, i, j)
    ensures r.Some? ==> r.value != []
    ensures r.Some? ==> exists i, j :: IsFirstMatch(name, i, j) && r.value == name[i + |GradlePrefix|..j]
  {
    match MatchFrom(name, 0)
    case None => None
    case Some((i, j)) =>
      assert IsFirstMatch(name, i, j);
      Some(name[i + |GradlePrefix|..j])
  }

  /**
   * For a task name without line breaks, the match found starts at the first "gradle" in the
   * name and its group runs up to the last "CrossVersionTest".
   */
  lemma FirstPrefixLastSuffix(name: string, i: int, j: int)
    requires forall k :: 0 <= k < |name| ==> !IsLineTerminator(name[k])
    requires IsFirstMatch(name, i, j)
    ensures forall i' :: 0 <= i' && PrefixAt(name, i') ==> i <= i'
    ensures forall j' :: 0 <= j' && SuffixAt(name, j') ==> j' <= j
  {
    forall i' | 0 <= i' && PrefixAt(name, i') ensures i <= i' {
      assert i' < i ==> MatchesAt(name, i', j);
    }
    forall j' | 0 <= j' && SuffixAt(name, j') ensures j' <= j {
      assert j' > j ==> MatchesAt(name, i, j');
    }
  }

  /** The largest Kotlin `Int`. */
  const IntMax: nat := 0x7fff_ffff

  /**
   * Whether the cross-version task for `currentVersionUnderTest` runs in the bucket for major
   * version N = `onlyTestGradleMajorVersion`: the version must lie in [N.0, (N+1).0), where the
   * lower bound is 0.0 when N is "1". Each step that throws in the source yields Err: a version
   * string Gradle does not read, an N that is not a number, and an N of Int.MAX_VALUE, whose
   * successor wraps around to a negative number.
   */
  function CurrentVersionEnabled(onlyTestGradleMajorVersion: string, currentVersionUnderTest: string): (r: Result<bool>)
    ensures r.Ok? ==> GradleVersion.Parse(currentVersionUnderTest).Some? && IsMajorNumber(onlyTestGradleMajorVersion)
  {
    match GradleVersion.Parse(currentVersionUnderTest)
    case None => Err("IllegalArgumentException: not a valid Gradle version")
    case Some(versionUnderTest) =>
      var lowerText := (if onlyTestGradleMajorVersion == "1" then "0" else onlyTestGradleMajorVersion) + ".0";
      match GradleVersion.Parse(lowerText)
      case None => Err("IllegalArgumentException: not a valid Gradle version")
      case Some(majorVersion) =>
        if !(onlyTestGradleMajorVersion != [] && GradleVersion.IsDigits(onlyTestGradleMajorVersion)
             && GradleVersion.DigitsValue(onlyTestGradleMajorVersion) <= IntMax)
        then Err("NumberFormatException")
        else
          var n := GradleVersion.DigitsValue(onlyTestGradleMajorVersion);
          if n == IntMax then Err("IllegalArgumentException: not a valid Gradle version")
          else
            match GradleVersion.Parse(GradleVersion.DecimalString(n + 1) + ".0")
            case None => Err("IllegalArgumentException: not a valid Gradle version")
            case Some(nextMajorVersion) =>
              Ok(GradleVersion.Le(majorVersion, versionUnderTest) && GradleVersion.Lt(versionUnderTest, nextMajorVersion))
  }

  /** The lower end of the window: major version N, or 0 when N is written "1". */
  function WindowFloor(onlyTestGradleMajorVersion: string): nat
    requires GradleVersion.IsDigits(onlyTestGradleMajorVersion)
  {
    if onlyTestGradleMajorVersion == "1" then 0 else GradleVersion.DigitsValue(onlyTestGradleMajorVersion)
  }

  /** A decimal major number that the window check accepts: its successor is still an `Int`. */
  predicate IsMajorNumber(s: string)
  {
    s != [] && GradleVersion.IsDigits(s) && GradleVersion.DigitsValue(s) < IntMax
  }

  /** The check's answer once the three version strings it reads are known to parse. */
  lemma EnabledFromParses(onlyTestGradleMajorVersion: string, currentVersionUnderTest: string,
                          v: GradleVersion.Version, lower: GradleVersion.Version, upper: GradleVersion.Version)
    requires IsMajorNumber(onlyTestGradleMajorVersion)
    requires GradleVersion.Parse(currentVersionUnderTest) == Some(v)
    requires GradleVersion.Parse((if onlyTestGradleMajorVersion == "1" then "0" else onlyTestGradleMajorVersion) + ".0")
             == Some(lower)
    requires GradleVersion.Parse(GradleVersion.DecimalString(GradleVersion.DigitsValue(onlyTestGradleMajorVersion) + 1) + ".0")
             == Some(upper)
    ensures CurrentVersionEnabled(onlyTestGradleMajorVersion, currentVersionUnderTest)
            == Ok(GradleVersion.Le(lower, v) && GradleVersion.Lt(v, upper))
  {
  }

  /**
   * For a readable version and a major number, the check compares against (floor).0 and (N+1).0,
   * which enables exactly the majors from the floor up to N.
   */
  lemma WindowBounds(onlyTestGradleMajorVersion: string, currentVersionUnderTest: string, v: GradleVersion.Version)
    requires GradleVersion.Parse(currentVersionUnderTest) == Some(v) && IsMajorNumber(onlyTestGradleMajorVersion)
    ensures CurrentVersionEnabled(onlyTestGradleMajorVersion, currentVersionUnderTest)
            == Ok(WindowFloor(onlyTestGradleMajorVersion) <= v.major <= GradleVersion.DigitsValue(onlyTestGradleMajorVersion))
  {
    var only := onlyTestGradleMajorVersion;
    var n := GradleVersion.DigitsValue(only);
    var floorText := if only == "1" then "0" else only;
    assert GradleVersion.IsDigits("0");
    GradleVersion.MajorDotZero(floorText);
    assert GradleVersion.DigitsValue(floorText) == WindowFloor(only) by {
      if only == "1" {
        assert "0"[..0] == "";
      }
    }
    GradleVersion.DecimalRoundTrip(n + 1);
    GradleVersion.MajorDotZero(GradleVersion.DecimalString(n + 1));
    EnabledFromParses(only, currentVersionUnderTest, v,
                      GradleVersion.Version(WindowFloor(only), [0]), GradleVersion.Version(n + 1, [0]));
    GradleVersion.MajorWindow(WindowFloor(only), n, v);
  }

  /**
   * The window stated on major numbers: the check succeeds exactly for a readable version and a
   * decimal N below Int.MAX_VALUE, and then enables exactly the majors from the floor up to N.
   */
  lemma VersionWindow(onlyTestGradleMajorVersion: string, currentVersionUnderTest: string)
    ensures CurrentVersionEnabled(onlyTestGradleMajorVersion, currentVersionUnderTest).Ok? <==>
              GradleVersion.Parse(currentVersionUnderTest).Some? && IsMajorNumber(onlyTestGradleMajorVersion)
    ensures GradleVersion.Parse(currentVersionUnderTest).Some? && IsMajorNumber(onlyTestGradleMajorVersion) ==>
              CurrentVersionEnabled(onlyTestGradleMajorVersion, currentVersionUnderTest)
              == Ok(WindowFloor(onlyTestGradleMajorVersion)
                      <= GradleVersion.Parse(currentVersionUnderTest).value.major
                      <= GradleVersion.DigitsValue(onlyTestGradleMajorVersion))
  {
    var parsed := GradleVersion.Parse(currentVersionUnderTest);
    if parsed.Some? && IsMajorNumber(onlyTestGradleMajorVersion) {
      WindowBounds(onlyTestGradleMajorVersion, currentVersionUnderTest, parsed.value);
    }
  }

  /* ---------------------------------------------------------------------------------------
   * Configuring a test task
   * --------------------------------------------------------------------------------------- */

  /** The test task that is run last, after all split buckets. */
  const IntegMultiVersionTest := "integMultiVersionTest"

  /** The part of a Gradle `Test` task that the providers read or change. */
  class TestTask {
    const name: string
    var enabled: bool
    var failOnNoMatchingTests: bool
    var includePatterns: set<string>
    var excludePatterns: set<string>

    constructor (name: string)
      ensures this.name == name && enabled && failOnNoMatchingTests
      ensures includePatterns == {} && excludePatterns == {}
    {
      this.name := name;
      enabled, failOnNoMatchingTests := true, true;
      includePatterns, excludePatterns := {}, {};
    }
  }

  /** The classes a provider lists for a source set; none when the source set is not listed. */
  function ClassesOf(testClasses: map<string, seq<string>>, sourceSetName: string): set<string>
  {
    if sourceSetName in testClasses then Elements(testClasses[sourceSetName]) else {}
  }

  /** What the cross-version provider does to a task: set `enabled` when its name carries a version. */
  twostate predicate CrossVersionApplied(onlyTestGradleMajorVersion: string, testTask: TestTask, outcome: Outcome)
    reads testTask
  {
    && testTask.failOnNoMatchingTests == old(testTask.failOnNoMatchingTests)
    && testTask.includePatterns == old(testTask.includePatterns)
    && testTask.excludePatterns == old(testTask.excludePatterns)
    && match ExtractTestTaskGradleVersion(testTask.name)
       case None => outcome == Done && testTask.enabled == old(testTask.enabled)
       case Some(version) =>
         match CurrentVersionEnabled(onlyTestGradleMajorVersion, version)
         case Ok(enabled) => outcome == Done && testTask.enabled == enabled
         case Err(reason) => outcome == Thrown(reason) && testTask.enabled == old(testTask.enabled)
  }

  /** What the include provider does to a task. */
  twostate predicate IncludeApplied(includeTestClasses: map<string, seq<string>>, testTask: TestTask, sourceSetName: string)
    reads testTask
  {
    && testTask.excludePatterns == old(testTask.excludePatterns)
    && if testTask.name == IntegMultiVersionTest then
         && !testTask.enabled
         && testTask.failOnNoMatchingTests == old(testTask.failOnNoMatchingTests)
         && testTask.includePatterns == old(testTask.includePatterns)
       else
         && testTask.enabled == old(testTask.enabled)
         && !testTask.failOnNoMatchingTests
         && testTask.includePatterns == old(testTask.includePatterns) + ClassesOf(includeTestClasses, sourceSetName)
  }

  /** What the exclude provider does to a task. */
  twostate predicate ExcludeApplied(excludeTestClasses: map<string, seq<string>>, testTask: TestTask, sourceSetName: string)
    reads testTask
  {
    && testTask.enabled == old(testTask.enabled)
    && testTask.includePatterns == old(testTask.includePatterns)
    && if testTask.name == IntegMultiVersionTest then
         && testTask.failOnNoMatchingTests == old(testTask.failOnNoMatchingTests)
         && testTask.excludePatterns == old(testTask.excludePatterns)
       else
         && !testTask.failOnNoMatchingTests
         && testTask.excludePatterns == old(testTask.excludePatterns) + ClassesOf(excludeTestClasses, sourceSetName)
  }

  /** The cross-version provider's `configureTest`. */
  method ConfigureCrossVersion(onlyTestGradleMajorVersion: string, testTask: TestTask) returns (outcome: Outcome)
    modifies testTask`enabled
    ensures CrossVersionApplied(onlyTestGradleMajorVersion, testTask, outcome)
  {
    outcome := Done;
    var currentVersionUnderTest := ExtractTestTaskGradleVersion(testTask.name);
    if currentVersionUnderTest.Some? {
      var enabled := CurrentVersionEnabled(onlyTestGradleMajorVersion, currentVersionUnderTest.value);
      match enabled
      case Ok(b) => testTask.enabled := b;
      case Err(reason) => outcome := Thrown(reason);
    }
  }

  /** The include provider's `configureTest`. */
  method ConfigureInclude(includeTestClasses: map<string, seq<string>>, testTask: TestTask, sourceSetName: string)
    modifies testTask`enabled, testTask`failOnNoMatchingTests, testTask`includePatterns
    ensures IncludeApplied(includeTestClasses, testTask, sourceSetName)
  {
    if testTask.name == IntegMultiVersionTest {
      testTask.enabled := false;
    } else {
      testTask.failOnNoMatchingTests := false;
      if sourceSetName in includeTestClasses {
        testTask.includePatterns := testTask.includePatterns + Elements(includeTestClasses[sourceSetName]);
      }
    }
  }

  /** The exclude provider's `configureTest`. */
  method ConfigureExclude(excludeTestClasses: map<string, seq<string>>, testTask: TestTask, sourceSetName: string)
    modifies testTask`failOnNoMatchingTests, testTask`excludePatterns
    ensures ExcludeApplied(excludeTestClasses, testTask, sourceSetName)
  {
    if testTask.name != IntegMultiVersionTest {
      testTask.failOnNoMatchingTests := false;
      if sourceSetName in excludeTestClasses {
        testTask.excludePatterns := testTask.excludePatterns + Elements(excludeTestClasses[sourceSetName]);
      }
    }
  }

  /**
   * `configureTest` of whichever provider was selected. The no-op provider changes nothing;
   * only the cross-version provider can throw.
   */
  method ConfigureTest(provider: Provider, testTask: TestTask, sourceSetName: string) returns (outcome: Outcome)
    modifies testTask
    ensures match provider
      case IncludeTestClassProvider(classes) => outcome == Done && IncludeApplied(classes, testTask, sourceSetName)
      case ExcludeTestClassProvider(classes) => outcome == Done && ExcludeApplied(classes, testTask, sourceSetName)
      case CrossVersionBucketProvider(only) => CrossVersionApplied(only, testTask, outcome)
      case NoOpTestClassProvider => outcome == Done && unchanged(testTask)
  {
    match provider
    case IncludeTestClassProvider(classes) =>
      ConfigureInclude(classes, testTask, sourceSetName);
      outcome := Done;
    case ExcludeTestClassProvider(classes) =>
      ConfigureExclude(classes, testTask, sourceSetName);
      outcome := Done;
    case CrossVersionBucketProvider(only) =>
      outcome := ConfigureCrossVersion(only, testTask);
    case NoOpTestClassProvider =>
      outcome := Done;
  }
}
