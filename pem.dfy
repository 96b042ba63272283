/**
 * Text-level handling of PEM (section 5 of RFC 7468): the encapsulation
 * boundary that `CaServiceImpl.upload` sniffs for, Java's `String.contains`,
 * and the PEM text that `PreflightResource.encode` writes for a certificate.
 */
module Pem {

  /** The text `upload` looks for to decide that a part is PEM. */
  const PemCertificateMarker: string := "-----BEGIN CERTIFICATE"

  /** The pre- and post-encapsulation boundaries of a certificate. */
  const PemCertificateBegin: string := "-----BEGIN CERTIFICATE-----\n"
  const PemCertificateEnd: string := "\n-----END CERTIFICATE-----\n"

  /** `pat` occurs in `s` starting at index `i`. */
  ghost predicate OccursAt(s: string, pat: string, i: int) {
    0 <= i && i + |pat| <= |s| && s[i..i + |pat|] == pat
  }

  /** Java's `s.contains(pat)`, scanning from the left. */
  function Contains(s: string, pat: string): bool
    decreases |s|
  {
    if |s| < |pat| then false
    else if s[..|pat|] == pat then true
    else Contains(s[1..], pat)
  }

  /** The scan finds `pat` exactly when it occurs somewhere in `s`. */
  lemma {:induction false} ContainsIffOccurs(s: string, pat: string)
    ensures Contains(s, pat) <==> exists i :: OccursAt(s, pat, i)
    decreases |s|
  {
    if |s| < |pat| {
    } else if s[..|pat|] == pat {
      assert OccursAt(s, pat, 0);
    } else {
      ContainsIffOccurs(s[1..], pat);
      if Contains(s[1..], pat) {
        var j :| OccursAt(s[1..], pat, j);
        assert s[1..][j..j + |pat|] == s[j + 1..j + 1 + |pat|];
        assert OccursAt(s, pat, j + 1);
      } else {
        forall i | OccursAt(s, pat, i)
          ensures false
        {
          assert i != 0;
          assert s[1..][i - 1..i - 1 + |pat|] == s[i..i + |pat|];
          assert OccursAt(s[1..], pat, i - 1);
        }
      }
    }
  }

  /** Text around a pattern does not hide it. */
  lemma ContainsInContext(pre: string, pat: string, post: string)
    ensures Contains(pre + pat + post, pat)
  {
    var s := pre + pat + post;
    assert s[|pre|..|pre| + |pat|] == pat;
    assert OccursAt(s, pat, |pre|);
    ContainsIffOccurs(s, pat);
  }

  /** PEM text of a certificate whose base64 body is `base64`. */
  function EncodeCertificate(base64: string): (r: string)
    ensures |r| == |PemCertificateBegin| + |base64| + |PemCertificateEnd|
    ensures r[..|PemCertificateBegin|] == PemCertificateBegin
  {
    PemCertificateBegin + base64 + PemCertificateEnd
  }

  /**
   * Whatever its body, an encoded certificate carries the marker that
   * `upload` sniffs for, so it is read back through the PEM path.
   */
  lemma EncodedCertificateIsSniffedAsPem(base64: string)
    ensures Contains(EncodeCertificate(base64), PemCertificateMarker)
  {
    var tail := "-----\n" + base64 + PemCertificateEnd;
    assert EncodeCertificate(base64) == [] + PemCertificateMarker + tail;
    ContainsInContext([], PemCertificateMarker, tail);
  }
}
