/**
 * The mock plugin policy used by Elasticsearch's unit tests.
 *
 * Plugin unit tests have no plugin layout, so the code base that should receive
 * a plugin's extra permissions is unknown. The policy builds the standard
 * policy twice, once as is and once with a system property that names a bogus
 * code base, and takes the permissions the second build grants to that code
 * base and the first does not (compared by equality). At check time it allows
 * what the standard policy allows and, for any caller that is neither trusted
 * infrastructure nor test code, also what those extra permissions imply.
 */
module Bootstrap {
  import opened Outcomes
  import opened Security
  import opened SystemProperties

  /**
   * The standard Elasticsearch policy, opaque here: the permissions its policy
   * template grants to a code source, in enumeration order, and its own decision.
   */
  datatype ESPolicy = ESPolicy(
    template: CodeSource -> seq<Permission>,
    implies: (ProtectionDomain, Permission) -> bool)

  /**
   * `new ESPolicy(permissions)`: a deterministic function of the dynamic
   * permissions and of the system properties its policy file refers to; it
   * throws when the policy cannot be built.
   */
  type PolicyBuilder = (set<Permission>, map<string, string>) -> Result<ESPolicy>

  /** The "any old code base" both policies are asked about. */
  const BogusUrl := "file:/bogus"
  const Bogus := CodeSource(BogusUrl, [])

  /** The placeholder code source of dynamically compiled scripts. */
  const GroovyScript := CodeSource("file:/groovy/script", [])

  /**
   * The code sources of the classes trusted as infrastructure, as the runtime
   * reports them (each may be null): Elasticsearch core, the Elasticsearch test
   * framework, the Lucene test framework, the test runner and JUnit.
   */
  datatype TrustedSources = TrustedSources(
    esCore: Option<CodeSource>,
    esTestFramework: Option<CodeSource>,
    luceneTestFramework: Option<CodeSource>,
    testRunner: Option<CodeSource>,
    junit: Option<CodeSource>)

  function TrustedList(trusted: TrustedSources): seq<Option<CodeSource>>
  {
    [trusted.esCore, trusted.esTestFramework, trusted.luceneTestFramework, trusted.testRunner, trusted.junit]
  }

  /** `new HashSet<>(Collections.list(collection.elements()))`. */
  function Elements(enumeration: seq<Permission>): set<Permission>
  {
    set p | p in enumeration
  }

  /** What a policy grants to the bogus code base. */
  function GenericGrants(policy: ESPolicy): set<Permission>
  {
    Elements(policy.template(Bogus))
  }

  /** `big.removeAll(small)`: the entries of `big` with no EQUAL entry in `small`. */
  function Delta(big: set<Permission>, small: set<Permission>): set<Permission>
  {
    big - small
  }

  /** The delta a comparison by implication would give instead: what `small` does not imply. */
  function ImpliedDelta(big: set<Permission>, small: set<Permission>, implication: Implication): set<Permission>
  {
    set p | p in big && !CollectionImplies(small, implication, p)
  }

  /**
   * A permission that the marker adds survives in the delta even when a generic
   * grant implies it, whereas a comparison by implication would drop it.
   */
  lemma EqualityKeepsSubsumedPermissions(big: set<Permission>, small: set<Permission>, implication: Implication, p: Permission)
    requires p in big && p !in small
    requires CollectionImplies(small, implication, p)
    ensures p in Delta(big, small)
    ensures p !in ImpliedDelta(big, small, implication)
  {
  }

  /**
   * Whenever implication is reflexive on the generic grants, comparing by
   * equality keeps at least what comparing by implication keeps.
   */
  lemma ImpliedDeltaWithinDelta(big: set<Permission>, small: set<Permission>, implication: Implication)
    requires forall q :: q in small ==> implication(q, q)
    ensures ImpliedDelta(big, small, implication) <= Delta(big, small)
  {
  }

  /**
   * Without reflexivity (an `UnresolvedPermission` implies nothing, itself
   * included), a permission present in both sets leaves the equality delta
   * but stays in the implication delta.
   */
  lemma ImplicationDeltaKeepsUnimpliedShared(big: set<Permission>, small: set<Permission>, implication: Implication, p: Permission)
    requires p in big && p in small
    requires !CollectionImplies(small, implication, p)
    ensures p !in Delta(big, small)
    ensures p in ImpliedDelta(big, small, implication)
  {
  }

  /**
   * `big.removeAll(small)` followed by the loop that adds each surviving
   * permission to `extraPermissions`.
   */
  method ExtraPermissions(big: set<Permission>, small: set<Permission>) returns (extra: set<Permission>)
    ensures extra == Delta(big, small)
  {
    var survivors := big - small;
    extra := {};
    var pending := survivors;
    while pending != {}
      invariant pending <= survivors
      invariant extra == survivors - pending
      decreases pending
    {
      var p :| p in pending;
      extra := extra + {p};
      pending := pending - {p};
    }
  }

  /** The six `excludedSources.add` calls. */
  method ExcludedSources(trusted: TrustedSources) returns (excluded: set<Option<CodeSource>>)
    ensures Some(GroovyScript) in excluded
    ensures |excluded| <= 6
    ensures forall cs :: cs in excluded <==> cs in TrustedList(trusted) || cs == Some(GroovyScript)
  {
    excluded := {};
    excluded := excluded + {trusted.esCore};
    excluded := excluded + {trusted.esTestFramework};
    excluded := excluded + {trusted.luceneTestFramework};
    excluded := excluded + {trusted.testRunner};
    excluded := excluded + {trusted.junit};
    excluded := excluded + {Some(GroovyScript)};
  }

  class MockPluginPolicy {
    const standardPolicy: ESPolicy
    const extraPermissions: set<Permission>
    const excludedSources: set<Option<CodeSource>>
    /** How the permission classes involved imply one another. */
    const implication: Implication

    constructor Init(standardPolicy: ESPolicy, extraPermissions: set<Permission>,
                     excludedSources: set<Option<CodeSource>>, implication: Implication)
      ensures this.standardPolicy == standardPolicy
      ensures this.extraPermissions == extraPermissions
      ensures this.excludedSources == excludedSources
      ensures this.implication == implication
    {
      this.standardPolicy := standardPolicy;
      this.extraPermissions := extraPermissions;
      this.excludedSources := excludedSources;
      this.implication := implication;
    }

    /**
     * The constructor `MockPluginPolicy(permissions, insecurePluginProp)`; an
     * exception it lets escape is a `Failure`. The standard policy is built
     * from the properties as found, the bigger one with the marker property
     * naming the bogus code base, which is cleared again right after.
     */
    static method Create(props: Properties, permissions: set<Permission>, insecurePluginProp: string,
                         build: PolicyBuilder, trusted: TrustedSources, implication: Implication)
      returns (r: Result<MockPluginPolicy>)
      modifies props
      ensures r.Success? ==> insecurePluginProp !in props.values
      ensures
        var before := old(props.values);
        var standard := build(permissions, before);
        var marked := before[insecurePluginProp := BogusUrl];
        var bigger := build(permissions, marked);
        if standard.Failure? then
          r == Failure(standard.error) && props.values == before
        else if insecurePluginProp == "" then
          r == Failure(IllegalArgumentException(EmptyKeyMessage)) && props.values == before
        else if bigger.Failure? then
          // the marker is left set when the second build throws
          r == Failure(bigger.error) && props.values == marked
        else
          && r.Success? && fresh(r.value)
          && props.values == before - {insecurePluginProp}
          && r.value.standardPolicy == standard.value
          && r.value.extraPermissions == Delta(GenericGrants(bigger.value), GenericGrants(standard.value))
          && Some(GroovyScript) in r.value.excludedSources
          && |r.value.excludedSources| <= 6
          && (forall cs :: cs in r.value.excludedSources <==> cs in TrustedList(trusted) || cs == Some(GroovyScript))
          && r.value.implication == implication
    {
      var standard := build(permissions, props.values);
      if standard.Failure? {
        return Failure(standard.error);
      }
      var small := Elements(standard.value.template(Bogus));

      var marked := props.SetProperty(insecurePluginProp, BogusUrl);
      if marked.Failure? {
        return Failure(marked.error);
      }
      var bigger := build(permissions, props.values);
      if bigger.Failure? {
        return Failure(bigger.error);
      }
      var cleared := props.ClearProperty(insecurePluginProp);
      var big := Elements(bigger.value.template(Bogus));

      var extra := ExtraPermissions(big, small);
      var excluded := ExcludedSources(trusted);
      var policy := new MockPluginPolicy.Init(standard.value, extra, excluded, implication);
      r := Success(policy);
    }

    /** A caller that may receive the extra permissions: neither trusted nor test code. */
    predicate MayUseExtra(cs: Option<CodeSource>)
    {
      cs !in excludedSources && !LooksLikeTestClasses(cs)
    }

    /**
     * `implies(domain, permission)`: the standard policy first; failing that,
     * the extra permissions, but only for a caller that may use them.
     */
    function Implies(domain: ProtectionDomain, permission: Permission): (allowed: bool)
      ensures standardPolicy.implies(domain, permission) ==> allowed
      ensures domain.codeSource in excludedSources ==> (allowed <==> standardPolicy.implies(domain, permission))
      ensures LooksLikeTestClasses(domain.codeSource) ==> (allowed <==> standardPolicy.implies(domain, permission))
      ensures allowed ==> standardPolicy.implies(domain, permission) || CollectionImplies(extraPermissions, implication, permission)
    {
      if standardPolicy.implies(domain, permission) then
        true
      else if domain.codeSource !in excludedSources && !LooksLikeTestClasses(domain.codeSource) then
        CollectionImplies(extraPermissions, implication, permission)
      else
        false
    }
  }

  /** Any caller that may use the extra permissions gets the standard decision or what they imply. */
  lemma OtherCallersGetBaselineOrExtra(m: MockPluginPolicy, domain: ProtectionDomain, permission: Permission)
    requires m.MayUseExtra(domain.codeSource)
    ensures m.Implies(domain, permission) <==>
            m.standardPolicy.implies(domain, permission) || CollectionImplies(m.extraPermissions, m.implication, permission)
  {
  }

  /** With nothing extra, the mock policy is the standard policy, for every caller. */
  lemma EmptyDeltaIsBaseline(m: MockPluginPolicy)
    requires m.extraPermissions == {}
    ensures forall domain, permission :: m.Implies(domain, permission) == m.standardPolicy.implies(domain, permission)
  {
  }

  /** More extra permissions never take access away. */
  lemma {:induction false} ImpliesMonotoneInExtra(m: MockPluginPolicy, n: MockPluginPolicy, domain: ProtectionDomain, permission: Permission)
    requires m.standardPolicy == n.standardPolicy && m.excludedSources == n.excludedSources && m.implication == n.implication
    requires m.extraPermissions <= n.extraPermissions
    ensures m.Implies(domain, permission) ==> n.Implies(domain, permission)
  {
  }

  /** A domain with no code source falls through to the extra permissions unless null is excluded. */
  lemma AbsentCodeSourceGetsBaselineOrExtra(m: MockPluginPolicy, permission: Permission)
    requires None !in m.excludedSources
    ensures m.Implies(ProtectionDomain(None), permission) <==>
            m.standardPolicy.implies(ProtectionDomain(None), permission) || CollectionImplies(m.extraPermissions, m.implication, permission)
  {
    AbsentCodeSourceIsNotTestCode();
  }

  /** Code loaded from a directory whose location mentions "test-classes" gets the standard decision only. */
  lemma TestLocationGetsBaseline(m: MockPluginPolicy, domain: ProtectionDomain, permission: Permission)
    requires domain.codeSource.Some? && Contains(domain.codeSource.value.location, TestClasses)
    ensures m.Implies(domain, permission) == m.standardPolicy.implies(domain, permission)
  {
    TestLocationIsSeen(domain.codeSource.value);
  }
}
