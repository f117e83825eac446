/** What `validate_metadata` reports, as a specification over the identity and the
    list of service records, with the lemmas that relate it to registration. */
module Validation {
  import opened Strings
  import opened Services
  import opened Metadata

  /** One diagnostic per failed check, in place of the message text. */
  datatype Diagnostic =
    | NameNotSet
    | VersionNotXYZ(version: string)
    | MissingKey(index: nat, key: string)
    | EndpointNoSlash(index: nat, endpoint: string)
    | MethodNotGetOrPost(index: nat, httpMethod: string)

  predicate IsServiceDiagnostic(d: Diagnostic)
  {
    d.MissingKey? || d.EndpointNoSlash? || d.MethodNotGetOrPost?
  }

  predicate NameIsUnset(id: Identity)
  {
    id.name == "" || id.name == PlaceholderName
  }

  /** An empty version is not checked; any other needs at least two dots. */
  predicate VersionIsMalformed(id: Identity)
  {
    id.version != "" && CountChar('.', id.version) < 2
  }

  function IdentityDiagnostics(id: Identity): seq<Diagnostic>
  {
    (if NameIsUnset(id) then [NameNotSet] else [])
    + (if VersionIsMalformed(id) then [VersionNotXYZ(id.version)] else [])
  }

  /** The checks on entry number `i`, in the order they are made. */
  function EntryDiagnostics(i: nat, svc: ServiceEntry): seq<Diagnostic>
  {
    (if "name" !in svc then [MissingKey(i, "name")] else [])
    + (if "endpoint" !in svc then [MissingKey(i, "endpoint")] else [])
    + (if "method" !in svc then [MissingKey(i, "method")] else [])
    + (if "endpoint" in svc && !StartsWith(svc["endpoint"], "/")
       then [EndpointNoSlash(i, svc["endpoint"])] else [])
    + (if "method" in svc && !IsGetOrPost(svc["method"])
       then [MethodNotGetOrPost(i, svc["method"])] else [])
  }

  /** The diagnostics of all entries, entry by entry in list order. */
  function ServiceDiagnostics(s: seq<ServiceEntry>): seq<Diagnostic>
  {
    if s == [] then [] else ServiceDiagnostics(s[..|s| - 1]) + EntryDiagnostics(|s| - 1, s[|s| - 1])
  }

  /** The whole list `validate_metadata` returns. */
  function Diagnostics(id: Identity, s: seq<ServiceEntry>): seq<Diagnostic>
  {
    IdentityDiagnostics(id) + ServiceDiagnostics(s)
  }

  /** What a record must hold to draw no diagnostic. */
  predicate WellFormedEntry(svc: ServiceEntry)
  {
    RequiredKeys <= svc.Keys && StartsWith(svc["endpoint"], "/") && IsGetOrPost(svc["method"])
  }

  lemma EntryDiagnosticsEmptyIff(i: nat, svc: ServiceEntry)
    ensures EntryDiagnostics(i, svc) == [] <==> WellFormedEntry(svc)
  {
  }

  /** Every diagnostic of an entry names that entry and is a per-service one. */
  lemma EntryDiagnosticsAreIndexed(i: nat, svc: ServiceEntry)
    ensures forall d :: d in EntryDiagnostics(i, svc) ==> IsServiceDiagnostic(d) && d.index == i
  {
  }

  lemma ServiceDiagnosticsAppend(s: seq<ServiceEntry>, svc: ServiceEntry)
    ensures ServiceDiagnostics(s + [svc]) == ServiceDiagnostics(s) + EntryDiagnostics(|s|, svc)
  {
    assert (s + [svc])[..|s|] == s;
  }

  lemma DiagnosticsAppend(id: Identity, s: seq<ServiceEntry>, svc: ServiceEntry)
    ensures Diagnostics(id, s + [svc]) == Diagnostics(id, s) + EntryDiagnostics(|s|, svc)
  {
    ServiceDiagnosticsAppend(s, svc);
  }

  /** The per-service part reports exactly the diagnostics of the individual entries. */
  lemma {:induction false} ServiceDiagnosticsExactly(s: seq<ServiceEntry>)
    ensures forall d :: d in ServiceDiagnostics(s) ==>
      IsServiceDiagnostic(d) && d.index < |s| && d in EntryDiagnostics(d.index, s[d.index])
    ensures forall i, d :: 0 <= i < |s| && d in EntryDiagnostics(i, s[i]) ==> d in ServiceDiagnostics(s)
  {
    if s != [] {
      var n := |s| - 1;
      ServiceDiagnosticsExactly(s[..n]);
      EntryDiagnosticsAreIndexed(n, s[n]);
      forall d | d in ServiceDiagnostics(s)
        ensures IsServiceDiagnostic(d) && d.index < |s| && d in EntryDiagnostics(d.index, s[d.index])
      {
        if d in ServiceDiagnostics(s[..n]) {
          assert s[..n][d.index] == s[d.index];
        }
      }
      forall i, d | 0 <= i < |s| && d in EntryDiagnostics(i, s[i])
        ensures d in ServiceDiagnostics(s)
      {
        if i < n {
          assert s[..n][i] == s[i];
        }
      }
    }
  }

  /** No per-service diagnostic at all exactly when every entry is well formed. */
  lemma {:induction false} ServiceDiagnosticsEmptyIff(s: seq<ServiceEntry>)
    ensures ServiceDiagnostics(s) == [] <==> forall i :: 0 <= i < |s| ==> WellFormedEntry(s[i])
  {
    if s != [] {
      var n := |s| - 1;
      ServiceDiagnosticsEmptyIff(s[..n]);
      EntryDiagnosticsEmptyIff(n, s[n]);
      if forall i :: 0 <= i < |s| ==> WellFormedEntry(s[i]) {
        assert forall i :: 0 <= i < n ==> WellFormedEntry(s[..n][i]);
      } else if ServiceDiagnostics(s[..n]) == [] {
        assert forall i :: 0 <= i < n ==> WellFormedEntry(s[..n][i]);
        assert !WellFormedEntry(s[n]);
      }
    }
  }

  /** The name diagnostic appears exactly when the name is empty or the placeholder. */
  lemma NameDiagnosticIff(id: Identity, s: seq<ServiceEntry>)
    ensures NameNotSet in Diagnostics(id, s) <==> NameIsUnset(id)
  {
    ServiceDiagnosticsExactly(s);
  }

  /** The version diagnostic appears exactly when the version is non-empty with fewer than
      two dots, and it quotes the version. */
  lemma VersionDiagnosticIff(id: Identity, s: seq<ServiceEntry>)
    ensures VersionNotXYZ(id.version) in Diagnostics(id, s) <==> VersionIsMalformed(id)
    ensures forall d :: d in Diagnostics(id, s) && d.VersionNotXYZ? ==> d == VersionNotXYZ(id.version)
  {
    ServiceDiagnosticsExactly(s);
  }

  /** Every record `register_service` stores passes the per-service checks. */
  lemma ProducedIsWellFormed(svc: ServiceEntry)
    requires Produced(svc)
    ensures WellFormedEntry(svc)
    ensures EntryDiagnostics(0, svc) == []
  {
    var name, endpoint, httpMethod, description :|
      NewService(name, endpoint, httpMethod, description) == Accepted(svc);
    EntryDiagnosticsEmptyIff(0, svc);
  }

  /** A registry built only through `register_service` draws no per-service diagnostic:
      whatever `validate_metadata` reports is about the name or the version. */
  lemma {:induction false} RegistryPassesValidation(id: Identity, s: seq<ServiceEntry>)
    requires forall i :: 0 <= i < |s| ==> Produced(s[i])
    ensures ServiceDiagnostics(s) == []
    ensures Diagnostics(id, s) == IdentityDiagnostics(id)
  {
    forall i | 0 <= i < |s| ensures WellFormedEntry(s[i]) {
      ProducedIsWellFormed(s[i]);
    }
    ServiceDiagnosticsEmptyIff(s);
  }

  /** The placeholder name draws a name diagnostic, whatever the version. */
  lemma PlaceholderExample()
    ensures NameNotSet in Diagnostics(Identity(PlaceholderName, "0.1.0", "", ""), [])
  {
    assert ServiceDiagnostics([]) == [];
  }

  /** The class defaults draw the name diagnostic alone: "0.0.0" has two dots. */
  lemma DefaultIdentityExample()
    ensures Diagnostics(DefaultIdentity, []) == [NameNotSet]
  {
    assert ServiceDiagnostics([]) == [];
    assert CountChar('.', "0.0.0") == 2;
  }

  /** "metrics" at "1.0.0" with no services draws nothing. */
  lemma MetricsIdentityExample()
    ensures Diagnostics(Identity("metrics", "1.0.0", "", ""), []) == []
  {
    assert ServiceDiagnostics([]) == [];
    assert CountChar('.', "1.0.0") == 2;
  }

  /** The documented "remote_metrics" at "0.1.0" with no services draws nothing. */
  lemma DocumentedIdentityExample()
    ensures Diagnostics(Identity("remote_metrics", "0.1.0", "", ""), []) == []
  {
    assert ServiceDiagnostics([]) == [];
    assert CountChar('.', "0.1.0") == 2;
  }

  /** A version with one dot draws the version diagnostic; an empty version is not checked. */
  lemma VersionExamples()
    ensures Diagnostics(Identity("metrics", "1.0", "", ""), []) == [VersionNotXYZ("1.0")]
    ensures Diagnostics(Identity("metrics", "", "", ""), []) == []
  {
    assert ServiceDiagnostics([]) == [];
    assert CountChar('.', "1.0") == 1;
  }
}
