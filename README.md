# Mock plugin policy — a Dafny model

Elasticsearch's unit tests for plugins run without a plugin layout, so the
security policy cannot tell which code base should receive a plugin's extra
permissions. `MockPluginPolicy` approximates this. Its constructor builds the
standard policy (`ESPolicy`) twice: once as it is, and once with a system
property (the marker) naming the bogus code base `file:/bogus`. It asks both for
the permissions of that code base and keeps what only the second grants
(`big.removeAll(small)`, comparison by equality). It also records six excluded
code sources: Elasticsearch core, its test framework, the Lucene test
framework, the test runner, JUnit and the `file:/groovy/script` placeholder.
Its `implies` allows what the standard policy allows. Otherwise it denies
excluded callers and callers whose code source text contains `test-classes`,
and allows everything else exactly when the extra permissions imply the
request.

Files:

- `outcomes.dfy` (`Outcomes`): `Option`, the exceptions, and `Result` for calls that may throw.
- `security.dfy` (`Security`): permissions with an uninterpreted implication relation, code sources, protection domains, `CodeSource.toString` / `Objects.toString`, `String.contains`, and the `test-classes` heuristic with lemmas relating it to the location.
- `system_properties.dfy` (`SystemProperties`): the process-wide properties as a class whose `SetProperty` / `ClearProperty` change a map, rejecting an empty key as `java.lang.System` does.
- `mock_plugin_policy.dfy` (`Bootstrap`): the opaque standard policy, the delta, the exclusion set, the class `MockPluginPolicy` with its constructor (`Create`) and its decision (`Implies`), and the lemmas about the decision.
- `scenarios.dfy` (`Scenarios`): a client that builds the policy over a concrete standard policy and checks the write-to-/var decisions.

The standard policy, the dynamic permissions and the code sources of the
trusted classes are parameters. `new ESPolicy(permissions)` is a function of the
dynamic permissions and the current system properties, and it may fail. The
Java constructor, which can throw, is the static method `Create`, which returns
a `Result`.

The constructor clears the marker only when the second build succeeds (line 74
throws past line 75). The model follows the code: `Create` leaves the marker
set when the second build fails. It also follows the
code on two more points. A marker that was already set before construction is
seen by the first build and is removed afterwards, not restored. A trusted
class whose code source is null puts null in the exclusion set.

## Model

| member | source | states |
|---|---|---|
| `Bootstrap.MockPluginPolicy.Create` | core/src/test/java/org/elasticsearch/bootstrap/MockPluginPolicy.java:62-106 | A failing first build throws and leaves the properties unchanged. An empty marker key is rejected, also with the properties unchanged. A failing second build throws and leaves the marker set to `file:/bogus`. On success the marker is absent, the standard policy is the first build, the extra permissions are exactly the bogus code base's grants under the marked build minus, by equality, its grants under the first, and the exclusion set is the five trusted sources plus the groovy placeholder (at most six). |
| `Bootstrap.ExtraPermissions` | core/src/test/java/org/elasticsearch/bootstrap/MockPluginPolicy.java:79-88 | The removeAll and the copy loop yield exactly the permissions of `big` that are not equal to any permission of `small`. |
| `Bootstrap.ExcludedSources` | core/src/test/java/org/elasticsearch/bootstrap/MockPluginPolicy.java:90-103 | The excluded set contains the groovy placeholder, has at most six members, and holds exactly the five trusted code sources and the placeholder. |
| `Bootstrap.EqualityKeepsSubsumedPermissions` | core/src/test/java/org/elasticsearch/bootstrap/MockPluginPolicy.java:79-82 | A permission added by the marker stays in the delta even when a generic grant implies it, and a comparison by implication would drop it. |
| `Bootstrap.ImpliedDeltaWithinDelta` | core/src/test/java/org/elasticsearch/bootstrap/MockPluginPolicy.java:79-82 | When implication is reflexive on the generic grants, the equality delta contains the implication delta. The premise fails for `UnresolvedPermission`, the class the source comment names; see the next row. |
| `Bootstrap.ImplicationDeltaKeepsUnimpliedShared` | core/src/test/java/org/elasticsearch/bootstrap/MockPluginPolicy.java:80-82 | Without reflexivity (an `UnresolvedPermission` implies nothing, not even itself), a permission present in both sets is dropped by the equality delta but kept by an implication delta, so neither delta contains the other in general. |
| `Bootstrap.Delta` | core/src/test/java/org/elasticsearch/bootstrap/MockPluginPolicy.java:82 | Definition, no contract: `removeAll` as set difference by equality. |
| `Bootstrap.GenericGrants` | core/src/test/java/org/elasticsearch/bootstrap/MockPluginPolicy.java:69-70 | Definition, no contract: the set of permissions a policy's template enumerates for `file:/bogus`. |
| `Bootstrap.MockPluginPolicy.MayUseExtra` | core/src/test/java/org/elasticsearch/bootstrap/MockPluginPolicy.java:112-113 | Definition, no contract: the caller is neither excluded nor test code. |
| `Security.LooksLikeTestClasses` | core/src/test/java/org/elasticsearch/bootstrap/MockPluginPolicy.java:113 | Definition, no contract: `Objects.toString(codeSource)` contains `test-classes`. |
| `Bootstrap.MockPluginPolicy.Implies` | core/src/test/java/org/elasticsearch/bootstrap/MockPluginPolicy.java:108-118 | A grant by the standard policy always allows. An excluded caller, or one whose code source text contains `test-classes`, gets exactly the standard decision. Anything allowed beyond the standard policy is implied by the extra permissions. The decision only reads the constant fields. |
| `Bootstrap.OtherCallersGetBaselineOrExtra` | core/src/test/java/org/elasticsearch/bootstrap/MockPluginPolicy.java:110-114 | For a caller neither excluded nor test code, the decision is the standard decision or-else extra-permissions-imply, in both directions. |
| `Bootstrap.EmptyDeltaIsBaseline` | core/src/test/java/org/elasticsearch/bootstrap/MockPluginPolicy.java:109-118 | With no extra permissions, the decision equals the standard policy's for every domain and permission. |
| `Bootstrap.ImpliesMonotoneInExtra` | core/src/test/java/org/elasticsearch/bootstrap/MockPluginPolicy.java:114 | With the same standard policy, exclusions and implication, a larger set of extra permissions never denies what a smaller one allows. |
| `Bootstrap.AbsentCodeSourceGetsBaselineOrExtra` | core/src/test/java/org/elasticsearch/bootstrap/MockPluginPolicy.java:112-114 | A domain without a code source ("null" text) is not test code, so unless null is excluded it gets the standard decision or the extra permissions. |
| `Bootstrap.TestLocationGetsBaseline` | core/src/test/java/org/elasticsearch/bootstrap/MockPluginPolicy.java:112-116 | Code whose location contains `test-classes` gets exactly the standard decision, whatever its signers. |
| `Security.AbsentCodeSourceIsNotTestCode` | core/src/test/java/org/elasticsearch/bootstrap/MockPluginPolicy.java:113 | The text `null` of an absent code source does not trip the heuristic. |
| `Security.TestLocationIsSeen` | core/src/test/java/org/elasticsearch/bootstrap/MockPluginPolicy.java:113 | A location containing `test-classes` makes the code source's text contain it. |
| `Security.UnsignedTestCodeIsLocationMatch` | core/src/test/java/org/elasticsearch/bootstrap/MockPluginPolicy.java:113 | For an unsigned code source, the heuristic fires if and only if the location contains `test-classes`. The surrounding parentheses and signer text cannot complete a match. |
| `SystemProperties.Properties.SetProperty` | core/src/test/java/org/elasticsearch/bootstrap/MockPluginPolicy.java:73 | An empty key is rejected with the properties unchanged. Otherwise the key is bound to the value, the rest is unchanged, and the previous value is returned. |
| `SystemProperties.Properties.ClearProperty` | core/src/test/java/org/elasticsearch/bootstrap/MockPluginPolicy.java:75 | An empty key is rejected with the properties unchanged. Otherwise only that key is removed and its previous value is returned. |
| `Scenarios.ScenarioPolicy` | core/src/test/java/org/elasticsearch/bootstrap/MockPluginPolicy.java:62-106 | The standard policy grants read on /tmp everywhere; the marked build also grants write on /var to the bogus code base. The resulting extra permissions are exactly {write /var}. |

## Left out

- The internals of `ESPolicy` and the parsing of its policy template: the policy is an opaque pair of functions built by an opaque, possibly failing builder.
- The meaning of `Permission.implies` for real permission classes, `UnresolvedPermission`, and the per-class grouping inside `Permissions`: implication is an uninterpreted relation, and a collection implies a permission when one of its members does.
- How the trusted code sources are obtained through `getProtectionDomain().getCodeSource()`: they are parameters, and each may be absent.
- URL parsing and the details of `URL.toString` and `CodeSource.equals`: a location is its string, and code sources are equal when the location and the certificate list are equal, so certificate order matters here but not in Java. The bogus and groovy code sources are built in Java with a null certificate array, which strict `CodeSource.equals` tells apart from an empty one; the model writes both as the empty list.
- Certificates are known only by their string form, and `CodeSource` signers without certificates are not modelled.
- Null arguments: the marker key is never null here (Java would throw a NullPointerException).
- The debug log of line 105: diagnostic only.
- Concurrency around the process-wide properties, and the security-manager checks that `System.setProperty` performs.
- The iteration order of the `HashSet` is not modelled: the copy loop takes the survivors in any order, which cannot change the resulting set.
