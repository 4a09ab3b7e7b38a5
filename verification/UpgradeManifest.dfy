/** Which upgrade manifests are accepted. */
module UpgradeManifest {
  datatype ManifestArtifact = ManifestArtifact(source: string, target: string, sha256: string, mode: string)

  predicate IsSpace(c: char) {
    || c == ' ' || '\t' <= c <= '\r' || c == '\U{85}' || c == '\U{A0}' || c == '\U{1680}' || '\U{2000}' <= c <= '\U{200A}'
    || c == '\U{2028}' || c == '\U{2029}' || c == '\U{202F}' || c == '\U{205F}' || c == '\U{3000}'
  }

  function TrimLeft(s: string): string {
    if s != "" && IsSpace(s[0]) then TrimLeft(s[1..]) else s
  }

  function Trim(s: string): string {
    var t := TrimLeft(s);
    if t != "" && IsSpace(t[|t| - 1]) then TrimRight(t) else t
  }

  function TrimRight(s: string): string {
    if s != "" && IsSpace(s[|s| - 1]) then TrimRight(s[..|s| - 1]) else s
  }

  predicate IsHex(c: char) {
    '0' <= c <= '9' || 'a' <= c <= 'f' || 'A' <= c <= 'F'
  }

  predicate IsSha256(s: string) {
    |Trim(s)| == 64 && forall c <- Trim(s) :: IsHex(c)
  }

  predicate IsMode(s: string) {
    |s| == 4 && s[0] == '0' && forall k :: 1 <= k < 4 ==> '0' <= s[k] <= '7'
  }

  /** `clean` is the lexical normal form of a path. */
  predicate ValidArtifact(a: ManifestArtifact, clean: string -> string) {
    a.source != "" && a.target != "" && a.target[0] == '/' && clean(a.target) != "/" && IsSha256(a.sha256) && IsMode(a.mode)
  }

  /** The first n artifacts are valid and have different targets. */
  predicate Accepted(arts: seq<ManifestArtifact>, clean: string -> string, n: nat) {
    && n <= |arts|
    && (forall i :: 0 <= i < n ==> ValidArtifact(arts[i], clean))
    && (forall i, j :: 0 <= i < j < n ==> clean(arts[i].target) != clean(arts[j].target))
  }

  predicate ValidManifest(version: string, arts: seq<ManifestArtifact>, clean: string -> string) {
    Trim(version) != "" && arts != [] && Accepted(arts, clean, |arts|)
  }

  /** The cleaned targets of the first n artifacts. */
  function Targets(arts: seq<ManifestArtifact>, clean: string -> string, n: nat): set<string>
    requires n <= |arts|
  {
    if n == 0 then {} else Targets(arts, clean, n - 1) + {clean(arts[n - 1].target)}
  }

  lemma {:induction false} TargetAt(arts: seq<ManifestArtifact>, clean: string -> string, n: nat, p: string) returns (k: nat)
    requires n <= |arts| && p in Targets(arts, clean, n)
    ensures k < n && clean(arts[k].target) == p
  {
    k := n - 1;
    if clean(arts[k].target) != p {
      k := TargetAt(arts, clean, n - 1, p);
    }
  }

  lemma {:induction false} TargetIn(arts: seq<ManifestArtifact>, clean: string -> string, n: nat, k: nat)
    requires k < n <= |arts|
    ensures clean(arts[k].target) in Targets(arts, clean, n)
  {
    if k < n - 1 {
      TargetIn(arts, clean, n - 1, k);
    }
  }

  /** One more artifact is accepted exactly when it is valid and its target is new. */
  lemma OneMoreAccepted(arts: seq<ManifestArtifact>, clean: string -> string, n: nat)
    requires n < |arts| && Accepted(arts, clean, n)
    ensures Accepted(arts, clean, n + 1) <==> ValidArtifact(arts[n], clean) && clean(arts[n].target) !in Targets(arts, clean, n)
  {
    if clean(arts[n].target) in Targets(arts, clean, n) {
      var k := TargetAt(arts, clean, n, clean(arts[n].target));
    } else {
      forall k | 0 <= k < n
        ensures clean(arts[k].target) != clean(arts[n].target)
      {
        TargetIn(arts, clean, n, k);
      }
    }
  }

  lemma AllOrSome(arts: seq<ManifestArtifact>, clean: string -> string, n: nat)
    requires n <= |arts| && !Accepted(arts, clean, n)
    ensures !Accepted(arts, clean, |arts|)
  {
  }

  method ValidateArtifact(a: ManifestArtifact, clean: string -> string) returns (ok: bool)
    ensures ok == ValidArtifact(a, clean)
  {
    if a.source == "" || a.target == "" {
      return false;
    }
    if a.target[0] != '/' || clean(a.target) == "/" {
      return false;
    }
    if !IsSha256(a.sha256) {
      return false;
    }
    return IsMode(a.mode);
  }

  method ValidateManifest(version: string, arts: seq<ManifestArtifact>, clean: string -> string) returns (ok: bool)
    ensures ok == ValidManifest(version, arts, clean)
    ensures ok ==> forall a <- arts ::
              && a.source != "" && a.target != "" && a.target[0] == '/' && clean(a.target) != "/"
              && |Trim(a.sha256)| == 64 && |a.mode| == 4 && a.mode[0] == '0'
  {
    if Trim(version) == "" {
      return false;
    }
    if arts == [] {
      return false;
    }
    var seen: set<string> := {};
    for i := 0 to |arts|
      invariant seen == Targets(arts, clean, i) && Accepted(arts, clean, i)
    {
      OneMoreAccepted(arts, clean, i);
      var target := clean(arts[i].target);
      var fine := ValidateArtifact(arts[i], clean);
      if !fine {
        AllOrSome(arts, clean, i + 1);
        return false;
      }
      if target in seen {
        AllOrSome(arts, clean, i + 1);
        return false;
      }
      seen := seen + {target};
    }
    return true;
  }
}
