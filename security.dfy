/**
 * The value types of the Java security model that the mock policy works on:
 * permissions, code sources, protection domains, and the string forms of code
 * sources that the "test-classes" heuristic inspects.
 */
module Security {
  import opened Outcomes

  /** A grantable capability: its class, its target name and its actions. */
  datatype Permission = Permission(kind: string, name: string, actions: string)

  /**
   * `Permission.implies` of the concrete permission classes, left uninterpreted:
   * `implication(q, p)` holds when granting `q` also grants `p`.
   */
  type Implication = (Permission, Permission) -> bool

  /** `PermissionCollection.implies`: some permission of the collection implies `p`. */
  predicate CollectionImplies(collection: set<Permission>, implication: Implication, p: Permission)
  {
    exists q :: q in collection && implication(q, p)
  }

  /** A signer certificate, known here only by its string form. */
  type Certificate = string

  /** A code location together with the certificates that signed the code. */
  datatype CodeSource = CodeSource(location: string, certificates: seq<Certificate>)

  /** A protection domain; `getCodeSource()` may return null, here `None`. */
  datatype ProtectionDomain = ProtectionDomain(codeSource: Option<CodeSource>)

  const NoSignerText := " <no signer certificates>"

  /** The certificate part of `CodeSource.toString`. */
  function SignerText(certificates: seq<Certificate>): string
  {
    if certificates == [] then NoSignerText else CertificateList(certificates)
  }

  function CertificateList(certificates: seq<Certificate>): string
  {
    if certificates == [] then "" else " " + certificates[0] + CertificateList(certificates[1..])
  }

  /** `Objects.toString(codeSource)`: "null" for an absent code source. */
  function CodeSourceText(cs: Option<CodeSource>): string
  {
    match cs
    case None => "null"
    case Some(c) => "(" + c.location + SignerText(c.certificates) + ")"
  }

  /** `pattern` starts at index `i` of `s`. */
  predicate OccursAt(s: string, pattern: string, i: nat)
  {
    i + |pattern| <= |s| && s[i..i + |pattern|] == pattern
  }

  /** `String.contains`. */
  predicate Contains(s: string, pattern: string)
  {
    exists i: nat | i <= |s| :: OccursAt(s, pattern, i)
  }

  const TestClasses := "test-classes"

  /** The heuristic for code compiled from a project's tests. */
  predicate LooksLikeTestClasses(cs: Option<CodeSource>)
  {
    Contains(CodeSourceText(cs), TestClasses)
  }

  /** A domain without a code source is never taken for test code. */
  lemma AbsentCodeSourceIsNotTestCode()
    ensures !LooksLikeTestClasses(None)
  {
  }

  /** A location that mentions "test-classes" always trips the heuristic, whatever the signers. */
  lemma {:induction false} TestLocationIsSeen(c: CodeSource)
    requires Contains(c.location, TestClasses)
    ensures LooksLikeTestClasses(Some(c))
  {
    var i: nat :| i <= |c.location| && OccursAt(c.location, TestClasses, i);
    var s := CodeSourceText(Some(c));
    var rest := SignerText(c.certificates) + ")";
    assert s == "(" + c.location + rest;
    assert s[i + 1..i + 1 + |TestClasses|] == c.location[i..i + |TestClasses|];
    assert OccursAt(s, TestClasses, i + 1);
  }

  /** The text after the location of an unsigned code source holds no '-'. */
  lemma SignerTailHasNoDash()
    ensures '-' !in NoSignerText + ")"
  {
    var tail := NoSignerText + ")";
    forall j | 0 <= j < |tail| ensures tail[j] != '-' {
    }
  }

  /** In the text of an unsigned code source a "test-classes" match lies inside the location. */
  lemma {:induction false} UnsignedMatchInLocation(c: CodeSource, i: nat)
    requires c.certificates == []
    requires OccursAt(CodeSourceText(Some(c)), TestClasses, i)
    ensures 1 <= i && i + |TestClasses| <= |c.location| + 1
  {
    var s := CodeSourceText(Some(c));
    var n := |c.location|;
    var tail := NoSignerText + ")";
    assert |TestClasses| == 12;
    assert s == "(" + c.location + tail;
    assert s[i..i + 12] == TestClasses;
    // the match starts with 't', not with the opening parenthesis
    assert s[i] == 't' && s[0] == '(';
    // its '-' cannot fall in the signer text, which has none
    assert s[i + 4] == '-';
    SignerTailHasNoDash();
    assert forall j :: n + 1 <= j < |s| ==> s[j] == tail[j - (n + 1)];
    // and it cannot cover the blank that opens the signer text
    assert s[n + 1] == ' ';
    assert forall k :: 0 <= k < 12 ==> s[i + k] == TestClasses[k] != ' ';
  }

  /**
   * For unsigned code (the usual case for a directory on the class path) the
   * heuristic sees the location and nothing else: the parentheses and the
   * " <no signer certificates>" text cannot complete a match.
   */
  lemma {:induction false} UnsignedTestCodeIsLocationMatch(c: CodeSource)
    requires c.certificates == []
    ensures LooksLikeTestClasses(Some(c)) <==> Contains(c.location, TestClasses)
  {
    if Contains(c.location, TestClasses) {
      TestLocationIsSeen(c);
    }
    if LooksLikeTestClasses(Some(c)) {
      var s := CodeSourceText(Some(c));
      var i: nat :| i <= |s| && OccursAt(s, TestClasses, i);
      UnsignedMatchInLocation(c, i);
      assert s == "(" + c.location + NoSignerText + ")";
      assert c.location[i - 1..i - 1 + |TestClasses|] == s[i..i + |TestClasses|];
      assert OccursAt(c.location, TestClasses, i - 1);
    }
  }
}
