/** Signature trust: the label `signatureStatus` gives one signature, the
    `signatureDetails` line, the `imageSignatures` factory that labels an
    image's signatures in place, and `overallVerification` over a tag. */
module Signatures {
  import opened Records

  const TRUSTED := "Trusted"
  const VERIFIED := "Verified"
  const FAILED := "Failed verification"
  const UNVERIFIED := "Unverified"
  const UNSIGNED := "Unsigned"

  /** `conditions.find(c => c.type === "Trusted")`, as the index of the
      first trusted condition. */
  function FindTrusted(conditions: seq<Condition>): (k: Option<nat>)
    ensures k.Some? ==> k.value < |conditions| && conditions[k.value].kind == TRUSTED
    ensures k.Some? ==> forall j | 0 <= j < k.value :: conditions[j].kind != TRUSTED
    ensures k.None? ==> forall j | 0 <= j < |conditions| :: conditions[j].kind != TRUSTED
  {
    if |conditions| == 0 then None
    else if conditions[0].kind == TRUSTED then Some(0)
    else match FindTrusted(conditions[1..])
      case None => None
      case Some(i) => Some(i + 1)
  }

  /** `signatureStatus(signature)`: "Verified" when some condition is
      trusted, "Failed verification" when there are conditions (possibly
      none at all) but none trusted, "Unverified" without `conditions`. */
  function SignatureStatus(signature: Signature): (status: string)
    ensures status == VERIFIED <==>
      signature.conditions.Some? && exists j | 0 <= j < |signature.conditions.value| :: signature.conditions.value[j].kind == TRUSTED
    ensures status == FAILED <==>
      signature.conditions.Some? && forall j | 0 <= j < |signature.conditions.value| :: signature.conditions.value[j].kind != TRUSTED
    ensures status == UNVERIFIED <==> signature.conditions.None?
  {
    match signature.conditions
    case None => UNVERIFIED
    case Some(conditions) => if FindTrusted(conditions).Some? then VERIFIED else FAILED
  }

  /** How string concatenation prints a field: `undefined` as "undefined".
      A `null` field, which string concatenation prints as "null", is not
      modelled. */
  function Show(field: Option<string>): string {
    match field
    case Some(s) => s
    case None => "undefined"
  }

  /** `signatureDetails(signature)`: "reason / message" of the first trusted
      condition, "" when there is none. */
  function SignatureDetails(signature: Signature): (details: string)
    ensures details != "" <==> SignatureStatus(signature) == VERIFIED
    ensures details != "" ==>
      var conditions := signature.conditions.value;
      var k := FindTrusted(conditions).value;
      details == Show(conditions[k].reason) + " / " + Show(conditions[k].message)
  {
    if signature.conditions.None? then ""
    else
      var conditions := signature.conditions.value;
      match FindTrusted(conditions)
      case None => ""
      case Some(k) => Show(conditions[k].reason) + " / " + Show(conditions[k].message)
  }

  /** The signatures `imageSignatures` hands out for `image`: the image's
      own signature objects, or none. */
  function SignaturesOf(image: Image?): seq<Signature> {
    if image == null || image.signatures.None? then [] else image.signatures.value
  }

  /** The signature objects `imageSignatures` may write `verified` into. */
  function Owned(image: Image?): set<Signature> {
    set s | s in SignaturesOf(image)
  }

  /** The `imageSignatures` factory and its identity-keyed cache. */
  class SignatureCache {
    var weak: map<Image, seq<Signature>>
    /** Every signature reachable from a cached entry. */
    ghost var Repr: set<Signature>

    /** Every cached entry lists its image's signatures, each labelled. */
    ghost predicate Valid()
      reads this, Repr
    {
      && (forall image | image in weak :: image.signatures == Some(weak[image]))
      && (forall image, i | image in weak && 0 <= i < |weak[image]| :: weak[image][i] in Repr)
      && (forall s | s in Repr :: s.verified == Some(SignatureStatus(s)))
    }

    constructor ()
      ensures Valid() && weak == map[]
    {
      weak := map[];
      Repr := {};
    }

    /** `imageSignatures(image)`: the image's signatures in their order, each
        with `verified` set to its label; an image without `signatures`
        gets none and is not cached; a cached image is answered as cached. */
    method Get(image: Image?) returns (signatures: seq<Signature>)
      requires Valid()
      modifies this, Owned(image)
      ensures Valid()
      ensures signatures == SignaturesOf(image)
      ensures forall i | 0 <= i < |signatures| :: signatures[i].verified == Some(SignatureStatus(signatures[i]))
      ensures image != null && image.signatures.Some? ==> weak == old(weak)[image := signatures]
      ensures image == null || image.signatures.None? ==> weak == old(weak)
    {
      if image == null {
        return [];
      }
      if image in weak {
        return weak[image];
      }
      if image.signatures.None? {
        return [];
      }
      signatures := LabelAll(image.signatures.value);
      weak := weak[image := signatures];
      Repr := Repr + set s | s in signatures;
    }
  }

  /** The `forEach` of `imageSignatures`: sets `verified` on each signature
      of `all`, in place, to its label, and pushes it onto a new list. */
  method LabelAll(all: seq<Signature>) returns (signatures: seq<Signature>)
    modifies set s | s in all
    ensures signatures == all
    ensures forall i | 0 <= i < |all| :: all[i].verified == Some(SignatureStatus(all[i]))
  {
    signatures := [];
    var i := 0;
    while i < |all|
      invariant 0 <= i <= |all|
      invariant signatures == all[..i]
      invariant forall j | 0 <= j < i :: all[j].verified == Some(SignatureStatus(all[j]))
    {
      all[i].verified := Some(SignatureStatus(all[i]));
      signatures := signatures + [all[i]];
      i := i + 1;
    }
  }

  /** The `verified` labels of `signatures`, in order. */
  function Labels(signatures: seq<Signature>): seq<Option<string>>
    reads signatures
  {
    seq(|signatures|, i requires 0 <= i < |signatures| reads signatures => signatures[i].verified)
  }

  /** The verdict `overallVerification` reaches as written: "Unsigned" for
      no signatures, otherwise the label of the last one. */
  function LastLabel(labels: seq<Option<string>>): Option<string> {
    if |labels| == 0 then Some(UNSIGNED) else labels[|labels| - 1]
  }

  /** The verdict where a failed signature decides: "Unsigned" for no
      signatures, "Failed verification" when any signature failed, otherwise
      the label of the last one. */
  function FailedWins(labels: seq<Option<string>>): Option<string> {
    if |labels| == 0 then Some(UNSIGNED)
    else if Some(FAILED) in labels then Some(FAILED)
    else labels[|labels| - 1]
  }

  /** `overallVerification(tag)` as written, given the signatures
      `imageSignatures` returns for the tag's image. Both branches of the
      loop assign the current label, so the last label is the verdict. */
  method OverallVerification(signatures: seq<Signature>) returns (overall: Option<string>)
    ensures overall == LastLabel(Labels(signatures))
  {
    overall := Some(UNVERIFIED);
    if |signatures| == 0 {
      return Some(UNSIGNED);
    }
    var i := 0;
    while i < |signatures|
      invariant 0 <= i <= |signatures|
      invariant 0 < i ==> overall == signatures[i - 1].verified
    {
      var status := signatures[i].verified;
      if status == Some(FAILED) || overall == Some(FAILED) || overall == None {
        overall := status;
      } else if status != Some(FAILED) {
        overall := status;
      }
      i := i + 1;
    }
  }

  /** `overallVerification` with the evidently intended fold: once a
      signature has failed verification the verdict stays failed. */
  method OverallVerificationFailedWins(signatures: seq<Signature>) returns (overall: Option<string>)
    ensures overall == FailedWins(Labels(signatures))
  {
    overall := Some(UNVERIFIED);
    if |signatures| == 0 {
      return Some(UNSIGNED);
    }
    var i := 0;
    while i < |signatures|
      invariant 0 <= i <= |signatures|
      invariant i == 0 ==> overall == Some(UNVERIFIED)
      invariant 0 < i ==> overall == FailedWins(Labels(signatures[..i]))
    {
      var status := signatures[i].verified;
      if overall != Some(FAILED) {
        overall := status;
      }
      assert Labels(signatures[..i + 1]) == Labels(signatures[..i]) + [status];
      i := i + 1;
    }
    assert signatures[..i] == signatures;
  }

  /** The two verdicts differ exactly when an earlier signature failed and
      the last one did not. */
  lemma VerdictsDiffer(labels: seq<Option<string>>)
    ensures LastLabel(labels) != FailedWins(labels) <==>
      |labels| > 0 && Some(FAILED) in labels && labels[|labels| - 1] != Some(FAILED)
  {
  }

  /** The input that shows it: a failed signature followed by a verified
      one is reported as verified. */
  lemma FailureOverwritten()
    ensures LastLabel([Some(FAILED), Some(VERIFIED)]) == Some(VERIFIED)
    ensures FailedWins([Some(FAILED), Some(VERIFIED)]) == Some(FAILED)
  {
  }
}
