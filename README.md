# Test-bucket providers and source-root inference, modelled in Dafny

This project models two small parts of the Gradle build, with proofs about each.

**Build-bucket providers** (`BuildBucketProvider.kt`, in the build logic for integration tests).
A CI build runs one "bucket" of the integration tests. The bucket's provider is picked once and
cached in the interface's companion object. The pick looks at three project properties:

- a non-blank `includeTestClasses` selects the include provider;
- otherwise a non-blank `excludeTestClasses` selects the exclude provider;
- otherwise a non-blank `onlyTestGradleMajorVersion` selects the cross-version provider;
- otherwise the no-op provider is used.

The include and exclude providers load a properties file of `testClass=sourceSet` lines. They
group it by source set and add each source set's classes to the include or exclude patterns of
its test tasks. The special task `integMultiVersionTest` gets different treatment: the include
provider disables it, and the exclude provider leaves it alone. The cross-version provider
enables a `gradle<version>CrossVersionTest` task only when the version is in the selected
major-version window.

**Source-root inference** (`CompilationSourceDirs.java`, in Java incremental compilation).
A compile task's sources are visited one root element at a time. Each element that is a
directory tree gives one root: its absolute path plus the separator. If any element is something
else, the roots cannot be inferred. Both results are computed the first time either getter is
called and are cached after that.

Files:

- `wrappers.dfy`: `Option`, `Result` and `Outcome`, used where the source returns null or throws.
- `gradle_version.dfy`: the slice of Gradle's version reading and ordering that the window check uses.
- `build_bucket_provider.dfy`: module `BuildBucketProvider`: selection and caching, grouping,
  the task-name pattern, the version window, and the `configureTest` of each provider on a
  `TestTask` class.
- `compilation_source_dirs.dfy`: module `CompilationSourceDirs`: the visitor class and the
  lazily resolving `CompilationSourceDirs` class.

Modelling choices:

- The project is a value. It holds its string properties and each class-list file as the
  `Properties` table it loads into. A file that cannot be read is `None`.
- The Gradle `Test` task is a class with `name`, `enabled`, `failOnNoMatchingTests` and
  two pattern sets.
- The companion's cached `instance` is a field of a class.
- `readTestClasses` is a loop over the table that picks keys in no fixed order, as a Hashtable
  does.
- Exceptions become `Err`/`Thrown` results. This covers a missing file, a version string Gradle
  rejects and a malformed major number. These checks run in the source's order. Exceptions
  that `GradleVersion` itself raises while comparing are not modelled (see "Left out").
- `File.getAbsolutePath` and `File.separatorChar` are platform inputs. They are given to the
  constructor.
- The root elements are a sequence of `FileCollection`, `FileTree` and
  `DirectoryFileTree(dir)`.

## Model

| member | source | states |
|---|---|---|
| `BuildBucketProvider.SelectedKind` | buildSrc/subprojects/integration-testing/src/main/kotlin/org/gradle/gradlebuild/test/integrationtests/BuildBucketProvider.kt:39-56 | Priority order: include iff `includeTestClasses` is non-blank; exclude iff include is blank and `excludeTestClasses` is non-blank; cross-version iff both are blank and `onlyTestGradleMajorVersion` is non-blank; no-op iff all three are blank |
| `BuildBucketProvider.IsWhitespace` | buildSrc/subprojects/integration-testing/src/main/kotlin/org/gradle/gradlebuild/test/integrationtests/BuildBucketProvider.kt:40 | Kotlin's `Char.isWhitespace`: the Java whitespace characters and the Unicode space, line and paragraph separators |
| `BuildBucketProvider.IsBlank` | buildSrc/subprojects/integration-testing/src/main/kotlin/org/gradle/gradlebuild/test/integrationtests/BuildBucketProvider.kt:40 | Kotlin's `isBlank`: empty or whitespace only, the negation of the `isNotBlank` tests at lines 40, 45 and 50 |
| `BuildBucketProvider.BlankIffTrimmedEmpty` | buildSrc/subprojects/integration-testing/src/main/kotlin/org/gradle/gradlebuild/test/integrationtests/BuildBucketProvider.kt:40 | A property is blank exactly when trimming its leading whitespace leaves the empty string |
| `BuildBucketProvider.BuildBucketProviderCompanion.constructor` | buildSrc/subprojects/integration-testing/src/main/kotlin/org/gradle/gradlebuild/test/integrationtests/BuildBucketProvider.kt:32-33 | The cache starts empty |
| `BuildBucketProvider.BuildBucketProviderCompanion.GetInstance` | buildSrc/subprojects/integration-testing/src/main/kotlin/org/gradle/gradlebuild/test/integrationtests/BuildBucketProvider.kt:35-61 | With a provider cached, returns it and changes nothing, whatever the project. With none cached, returns the provider the project selects, whose class lists group its file's table; caches it only on success; a class-list file that cannot be read throws and leaves the cache empty |
| `BuildBucketProvider.ReadTestClasses` | buildSrc/subprojects/integration-testing/src/main/kotlin/org/gradle/gradlebuild/test/integrationtests/BuildBucketProvider.kt:64-73 | The result partitions the table. Its keys are exactly the source sets named. Each class appears exactly once, in the list of its own source set. No list is empty or repeats a class. List lengths sum to the number of classes |
| `BuildBucketProvider.GroupingStep` | buildSrc/subprojects/integration-testing/src/main/kotlin/org/gradle/gradlebuild/test/integrationtests/BuildBucketProvider.kt:68-72 | One loop iteration (get-or-create the list, append the key, store it back) keeps the partition property for the enlarged table |
| `BuildBucketProvider.KeysAreSourceSets` | buildSrc/subprojects/integration-testing/src/main/kotlin/org/gradle/gradlebuild/test/integrationtests/BuildBucketProvider.kt:66-72 | The grouping's keys are exactly the table's values |
| `BuildBucketProvider.TotalLengthRemove` | buildSrc/subprojects/integration-testing/src/main/kotlin/org/gradle/gradlebuild/test/integrationtests/BuildBucketProvider.kt:66-73 | The total length of the lists does not depend on which list is counted first |
| `BuildBucketProvider.TotalLengthUpdate` | buildSrc/subprojects/integration-testing/src/main/kotlin/org/gradle/gradlebuild/test/integrationtests/BuildBucketProvider.kt:71 | Storing a list back changes the total length by the list's growth |
| `BuildBucketProvider.ClassesOfSourceSet` | buildSrc/subprojects/integration-testing/src/main/kotlin/org/gradle/gradlebuild/test/integrationtests/BuildBucketProvider.kt:108 | The classes a provider adds for a source set are exactly the file's classes for that source set. A source set absent from the file adds none |
| `BuildBucketProvider.RunEnd` | buildSrc/subprojects/integration-testing/src/main/kotlin/org/gradle/gradlebuild/test/integrationtests/BuildBucketProvider.kt:97 | The greedy `.+` first consumes a maximal run of non-line-terminators |
| `BuildBucketProvider.LastSuffixAt` | buildSrc/subprojects/integration-testing/src/main/kotlin/org/gradle/gradlebuild/test/integrationtests/BuildBucketProvider.kt:97 | Backtracking finds the last place in the run where `CrossVersionTest` starts, or reports that there is none |
| `BuildBucketProvider.MatchFrom` | buildSrc/subprojects/integration-testing/src/main/kotlin/org/gradle/gradlebuild/test/integrationtests/BuildBucketProvider.kt:97 | `find` from a position returns the leftmost match, with the longest group at that start; returns none exactly when no match starts at or after the position |
| `BuildBucketProvider.ExtractTestTaskGradleVersion` | buildSrc/subprojects/integration-testing/src/main/kotlin/org/gradle/gradlebuild/test/integrationtests/BuildBucketProvider.kt:96-97 | Returns null iff `gradle(.+)CrossVersionTest` has no match. Otherwise returns the non-empty group of the match `find` reports |
| `BuildBucketProvider.FirstPrefixLastSuffix` | buildSrc/subprojects/integration-testing/src/main/kotlin/org/gradle/gradlebuild/test/integrationtests/BuildBucketProvider.kt:97 | In a name without line breaks, the group starts right after the first "gradle" and ends at the last "CrossVersionTest" |
| `BuildBucketProvider.CurrentVersionEnabled` | buildSrc/subprojects/integration-testing/src/main/kotlin/org/gradle/gradlebuild/test/integrationtests/BuildBucketProvider.kt:88-94 | Reads the version, then "N.0" (or "0.0" for N = "1"), then N as an `Int` and "(N+1).0", throwing at the first step that fails. A result is returned only when the version reads and N is a decimal number below Int.MAX_VALUE |
| `BuildBucketProvider.WindowBounds` | buildSrc/subprojects/integration-testing/src/main/kotlin/org/gradle/gradlebuild/test/integrationtests/BuildBucketProvider.kt:88-94 | For a readable version and such an N, the answer is exactly "floor <= major <= N" |
| `BuildBucketProvider.VersionWindow` | buildSrc/subprojects/integration-testing/src/main/kotlin/org/gradle/gradlebuild/test/integrationtests/BuildBucketProvider.kt:87-94 | The check returns a value iff the version string is a Gradle version and N is a decimal below Int.MAX_VALUE. It throws in every other case, including N = Int.MAX_VALUE, where N+1 wraps. When it returns, a version is enabled iff M <= its major <= N, where M = 0 for N = "1" and M = N otherwise |
| `BuildBucketProvider.ConfigureCrossVersion` | buildSrc/subprojects/integration-testing/src/main/kotlin/org/gradle/gradlebuild/test/integrationtests/BuildBucketProvider.kt:80-85 | Only `enabled` may change. A name without a version leaves the task untouched. Otherwise `enabled` is set to the window check's answer, or the check's exception is thrown and `enabled` is unchanged |
| `BuildBucketProvider.ConfigureInclude` | buildSrc/subprojects/integration-testing/src/main/kotlin/org/gradle/gradlebuild/test/integrationtests/BuildBucketProvider.kt:102-110 | `integMultiVersionTest` is disabled and its filter is untouched. Any other task keeps `enabled`, gets `failOnNoMatchingTests = false`, and its include patterns grow by exactly its source set's classes. Exclude patterns never change |
| `BuildBucketProvider.ConfigureExclude` | buildSrc/subprojects/integration-testing/src/main/kotlin/org/gradle/gradlebuild/test/integrationtests/BuildBucketProvider.kt:115-120 | `integMultiVersionTest` is left entirely unchanged. Any other task gets `failOnNoMatchingTests = false`, and its exclude patterns grow by exactly its source set's classes. `enabled` and the include patterns never change |
| `BuildBucketProvider.ConfigureTest` | buildSrc/subprojects/integration-testing/src/main/kotlin/org/gradle/gradlebuild/test/integrationtests/BuildBucketProvider.kt:28-29 | Dispatches `configureTest` to the selected provider. The no-op provider (lines 124-126) leaves every field of the task unchanged. Only the cross-version provider can throw |
| `GradleVersion.DecimalString` | buildSrc/subprojects/integration-testing/src/main/kotlin/org/gradle/gradlebuild/test/integrationtests/BuildBucketProvider.kt:92 | `"${n + 1}"` is a non-empty string of decimal digits |
| `GradleVersion.DecimalRoundTrip` | buildSrc/subprojects/integration-testing/src/main/kotlin/org/gradle/gradlebuild/test/integrationtests/BuildBucketProvider.kt:92 | Reading back the decimal text of n gives n |
| `GradleVersion.Parse` | buildSrc/subprojects/integration-testing/src/main/kotlin/org/gradle/gradlebuild/test/integrationtests/BuildBucketProvider.kt:89-92 | `GradleVersion.version` accepts a string exactly when its dot-separated pieces form a version text: two or more pieces, each a non-empty string of decimal digits. An accepted version has at least one number after its major |
| `GradleVersion.SplitJoinsBack` | buildSrc/subprojects/integration-testing/src/main/kotlin/org/gradle/gradlebuild/test/integrationtests/BuildBucketProvider.kt:89-92 | The pieces a version string is cut into contain no '.', and joining them with '.' gives the string back |
| `GradleVersion.SplitJoin` | buildSrc/subprojects/integration-testing/src/main/kotlin/org/gradle/gradlebuild/test/integrationtests/BuildBucketProvider.kt:89-92 | Cutting dot-free pieces joined with '.' gives the same pieces back, so the cut is the unique dot-free decomposition |
| `GradleVersion.ParseJoin` | buildSrc/subprojects/integration-testing/src/main/kotlin/org/gradle/gradlebuild/test/integrationtests/BuildBucketProvider.kt:89-92 | A version text written out with dots is read back as the version whose major is the first piece's value and whose remaining numbers are the other pieces' values, in order |
| `GradleVersion.ParseAccepts` | buildSrc/subprojects/integration-testing/src/main/kotlin/org/gradle/gradlebuild/test/integrationtests/BuildBucketProvider.kt:89-92 | A string is accepted exactly when it is some version text joined with dots |
| `GradleVersion.MajorDotZero` | buildSrc/subprojects/integration-testing/src/main/kotlin/org/gradle/gradlebuild/test/integrationtests/BuildBucketProvider.kt:91-92 | `"<digits>.0"` is read as the version whose major is those digits' value, followed by 0 |
| `GradleVersion.MajorFloor` | buildSrc/subprojects/integration-testing/src/main/kotlin/org/gradle/gradlebuild/test/integrationtests/BuildBucketProvider.kt:93 | `M.0 <= v` iff M <= v's major |
| `GradleVersion.MajorCeiling` | buildSrc/subprojects/integration-testing/src/main/kotlin/org/gradle/gradlebuild/test/integrationtests/BuildBucketProvider.kt:93 | `v < M.0` iff v's major < M |
| `GradleVersion.MajorWindow` | buildSrc/subprojects/integration-testing/src/main/kotlin/org/gradle/gradlebuild/test/integrationtests/BuildBucketProvider.kt:93 | `M.0 <= v && v < (N+1).0` iff M <= v's major <= N |
| `GradleVersion.Le` | buildSrc/subprojects/integration-testing/src/main/kotlin/org/gradle/gradlebuild/test/integrationtests/BuildBucketProvider.kt:93 | The `<=` of the window check: major number first, then the following numbers lexicographically, a proper prefix first |
| `GradleVersion.Lt` | buildSrc/subprojects/integration-testing/src/main/kotlin/org/gradle/gradlebuild/test/integrationtests/BuildBucketProvider.kt:93 | The `<` of the window check: at or below and not equal |
| `GradleVersion.LeTotalOrder` | buildSrc/subprojects/integration-testing/src/main/kotlin/org/gradle/gradlebuild/test/integrationtests/BuildBucketProvider.kt:93 | `<=` is reflexive, total, antisymmetric and transitive, and `a < b` holds exactly when `b <= a` does not |
| `CompilationSourceDirs.SourceRootsAppend` | subprojects/language-java/src/main/java/org/gradle/api/internal/tasks/compile/incremental/CompilationSourceDirs.java:72-87 | Roots collected over two consecutive stretches of elements are the first stretch's roots followed by the second's. The list is append-only and keeps visit order |
| `CompilationSourceDirs.SourceRootsShape` | subprojects/language-java/src/main/java/org/gradle/api/internal/tasks/compile/incremental/CompilationSourceDirs.java:85-87 | There is exactly one root per directory-tree element, duplicates kept. Every root ends with the separator and is some directory tree's absolute path plus the separator |
| `CompilationSourceDirs.RootPosition` | subprojects/language-java/src/main/java/org/gradle/api/internal/tasks/compile/incremental/CompilationSourceDirs.java:85-87 | The directory tree at position k gives the root at position "number of directory trees before k", so roots are in visit order |
| `CompilationSourceDirs.OtherElementsAddNoRoot` | subprojects/language-java/src/main/java/org/gradle/api/internal/tasks/compile/incremental/CompilationSourceDirs.java:75-82 | A collection or generic tree, wherever it stands, adds no root. Roots are still collected when inference fails |
| `CompilationSourceDirs.InferenceLostForGood` | subprojects/language-java/src/main/java/org/gradle/api/internal/tasks/compile/incremental/CompilationSourceDirs.java:89-90 | Once a non-directory element has been seen, no further elements make roots inferable again |
| `CompilationSourceDirs.SourceRootVisitor.constructor` | subprojects/language-java/src/main/java/org/gradle/api/internal/tasks/compile/incremental/CompilationSourceDirs.java:71-72 | A fresh visitor can infer roots and has collected none |
| `CompilationSourceDirs.SourceRootVisitor.VisitCollection` | subprojects/language-java/src/main/java/org/gradle/api/internal/tasks/compile/incremental/CompilationSourceDirs.java:75-77 | Clears the flag and touches nothing else |
| `CompilationSourceDirs.SourceRootVisitor.VisitTree` | subprojects/language-java/src/main/java/org/gradle/api/internal/tasks/compile/incremental/CompilationSourceDirs.java:80-82 | Clears the flag and touches nothing else |
| `CompilationSourceDirs.SourceRootVisitor.VisitDirectoryTree` | subprojects/language-java/src/main/java/org/gradle/api/internal/tasks/compile/incremental/CompilationSourceDirs.java:85-87 | Appends the directory's absolute path plus the separator. The flag is not touched |
| `CompilationSourceDirs.SourceRootVisitor.CannotInferSourceRoots` | subprojects/language-java/src/main/java/org/gradle/api/internal/tasks/compile/incremental/CompilationSourceDirs.java:89-92 | Sets the flag to false and changes nothing else |
| `CompilationSourceDirs.SourceRootVisitor.AbsolutePath` | subprojects/language-java/src/main/java/org/gradle/api/internal/tasks/compile/incremental/CompilationSourceDirs.java:102-104 | The root of a directory is its absolute path followed by the separator, the one root `RootOf` gives a directory tree |
| `CompilationSourceDirs.SourceRootVisitor.Visit` | subprojects/language-java/src/main/java/org/gradle/api/internal/tasks/compile/incremental/CompilationSourceDirs.java:74-87 | Each element appends its root, if it has one. The flag becomes old flag AND "is a directory tree", so it never goes from false back to true |
| `CompilationSourceDirs.CompilationSourceDirs.constructor` | subprojects/language-java/src/main/java/org/gradle/api/internal/tasks/compile/incremental/CompilationSourceDirs.java:45-47 | Nothing is resolved yet and the sources have been visited zero times |
| `CompilationSourceDirs.CompilationSourceDirs.GetSourceRoots` | subprojects/language-java/src/main/java/org/gradle/api/internal/tasks/compile/incremental/CompilationSourceDirs.java:49-54 | Returns the roots of all elements in visit order. Afterwards the cache is filled and the sources have been visited exactly once. If the cache was already filled, nothing changes |
| `CompilationSourceDirs.CompilationSourceDirs.CanInferSourceRoots` | subprojects/language-java/src/main/java/org/gradle/api/internal/tasks/compile/incremental/CompilationSourceDirs.java:56-61 | Returns true iff every root element is a directory tree, so true for no elements. Afterwards the sources have been visited exactly once. If the cache was already filled, nothing changes |
| `CompilationSourceDirs.CompilationSourceDirs.ResolveRoots` | subprojects/language-java/src/main/java/org/gradle/api/internal/tasks/compile/incremental/CompilationSourceDirs.java:63-68 | Visits every element once, in order, and stores the flag and the roots together. It is called only while nothing is cached, so the visit count goes from 0 to 1 |

## Left out

- Reading the class-list files (`readText`) and `println` logging are left out. The file's
  loaded table is an input, and a file that cannot be read is `None`.
- The text parsing of `Properties.load` is left out. The model starts from the loaded table,
  whose keys are distinct.
- The order of classes inside one source set's list follows Hashtable iteration in the source.
  The model leaves it open and states membership and counts only.
- BuildBucketProvider.StringPropertyOrEmpty: looks the name up in a plain map of string
  properties. The real `stringPropertyOrEmpty` goes through `findProperty`, which also sees
  inherited properties, and turns a value that is not a `String` into "". Neither is modelled.
- GradleVersion.Parse: versions with a stage or snapshot suffix
  (`5.0-rc-1`, `-SNAPSHOT`, timestamps) are rejected here, but `GradleVersion` accepts and
  orders them, a pre-release below its release. In the source, an `X.0-<stage>` or
  `X.0-<timestamp>` version therefore lies below `X.0` and is enabled in bucket X-1. In the
  model, every suffixed version name makes the window check throw, in every bucket. Numbers are
  unbounded, and after the major the numbers compare lexicographically with a prefix first.
  For the suffix-free versions the model accepts, the window only depends on the major number,
  because both of its bounds have the form `M.0`.
- VersionWindow, Le and Lt: `GradleVersion` is modelled as its numbers only. The real
  `compareTo` reads each number as an `Int` and throws for one above Int.MAX_VALUE (N = "5" and
  version "5.99999999999" throw in the source and are enabled here). It also breaks a tie of
  equal numbers on the version text, so "5.0" <= "05.0" is false there and true here. Neither
  case is modelled.
- CompilationSourceDirs.GetSourceRoots: the source hands out its cached list object itself, so
  callers share it with the cache. The model returns the list as a value, so that aliasing is
  not captured.
- BuildBucketProvider.IsWhitespace: follows current Unicode. Java 8 also counted U+180E as a
  space separator.
- The regex engine is replaced by an explicit search with the same leftmost-start,
  greedy-group semantics.
- Of the `configureTest` parameters, only the source set's name is used. `testType` is unused
  in the source.
- The companion's `instance` field is not synchronised in the source. Concurrent
  `getInstance` calls are not modelled.
- `visitRootElements` is a sequence of root elements given as input. `File.getAbsolutePath`
  and `File.separatorChar` are platform inputs. The `LOG.info` message is not modelled.
- The weight-based splitting of the test suite into CI buckets is not part of this model.
  That splitting is in `.teamcity/Gradle_Check/model/BucketProvider.kt`, and the modelled
  provider only applies the include and exclude lists that the splitting writes out.
  `DefaultFileCollectionSnapshotter.java` and `DaemonActionExecutionSpec.java` are not part of
  this model either. They are file-system snapshotting and Java serialisation.
