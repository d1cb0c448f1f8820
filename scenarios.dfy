/**
 * A client of the mock policy: the standard policy grants read access to /tmp
 * everywhere, and with the marker set it also grants write access to /var to
 * the code base the marker names.
 */
module Scenarios {
  import opened Outcomes
  import opened Security
  import opened SystemProperties
  import opened Bootstrap

  const MarkerKey := "es.insecure.plugin"
  const ReadTmp := Permission("java.io.FilePermission", "/tmp", "read")
  const WriteVar := Permission("java.io.FilePermission", "/var", "write")
  const ExecuteBin := Permission("java.io.FilePermission", "/bin", "execute")
  const Trusted := TrustedSources(
    Some(CodeSource("/es", [])), Some(CodeSource("/es-test", [])), Some(CodeSource("/lucene", [])),
    Some(CodeSource("/runner", [])), Some(CodeSource("/junit", [])))

  /** Builds the mock policy over a standard policy that grants /var only to the code base the marker names. */
  method ScenarioPolicy() returns (policy: MockPluginPolicy)
    ensures policy.extraPermissions == {WriteVar}
    ensures forall d, p :: policy.standardPolicy.implies(d, p) == (p == ReadTmp)
    ensures forall q, p :: policy.implication(q, p) == (q == p)
    ensures forall cs :: cs in policy.excludedSources <==> cs in TrustedList(Trusted) || cs == Some(GroovyScript)
  {
    var build: PolicyBuilder := (dynamic: set<Permission>, values: map<string, string>) =>
      Success(ESPolicy(
        (cs: CodeSource) => if MarkerKey in values && cs.location == values[MarkerKey] then [ReadTmp, WriteVar] else [ReadTmp],
        (d: ProtectionDomain, p: Permission) => p == ReadTmp));
    var props := new Properties(map[]);

    var r := MockPluginPolicy.Create(props, {}, MarkerKey, build, Trusted, (q: Permission, p: Permission) => q == p);
    assert MarkerKey !in props.values;
    assert r.Success?;
    policy := r.value;
    assert Elements([ReadTmp, WriteVar]) - Elements([ReadTmp]) == {WriteVar};
  }

  method WriteVarScenario()
  {
    var policy := ScenarioPolicy();
    var plugin := ProtectionDomain(Some(CodeSource("/plugin", [])));
    UnsignedTestCodeIsLocationMatch(plugin.codeSource.value);
    assert policy.Implies(plugin, WriteVar);
    assert policy.Implies(plugin, ReadTmp);
    assert !policy.Implies(plugin, ExecuteBin);
  }

  method ExcludedScenario()
  {
    var policy := ScenarioPolicy();
    var groovy := ProtectionDomain(Some(GroovyScript));
    assert !policy.Implies(groovy, WriteVar);
    var tests := ProtectionDomain(Some(CodeSource("/build/test-classes", [])));
    assert OccursAt(tests.codeSource.value.location, TestClasses, 7);
    TestLocationGetsBaseline(policy, tests, WriteVar);
    assert !policy.Implies(tests, WriteVar);
  }
}
