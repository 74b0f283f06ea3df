/**
 Content checksums and the deduplication key of an enqueue.

 SHA-256 (section 6.2 of FIPS 180-4) is a parameter `sha`, returning the hex text of
 the digest.  It cannot be injective on all strings, so every statement that needs
 that names the collision it would otherwise run into.
 */
module Keys {

  function Checksum(sha: string -> string, content: string): string {
    "sha256:" + sha(content)
  }

  /** What identifies a source: its reference (url or filename) when it has one, else its title. */
  function SourceKey(sourceRef: string, title: string): string {
    if sourceRef == "" then title else sourceRef
  }

  function KeyText(kb: string, source: string, checksum: string): string {
    kb + ":" + source + ":" + checksum
  }

  function IdempotencyKey(sha: string -> string, kb: string, sourceRef: string, title: string, checksum: string): string {
    "idem:" + sha(KeyText(kb, SourceKey(sourceRef, title), checksum))
  }

  ghost predicate IsDigest(h: string) {
    |h| == 64 && forall c :: c in h ==> c in "0123456789abcdef"
  }

  /** Two different texts with one digest. */
  ghost predicate Collision(sha: string -> string, x: string, y: string) {
    x != y && sha(x) == sha(y)
  }

  /** A checksum column holds nothing (url sources) or the prefix and a digest. */
  ghost predicate IsChecksum(cs: string) {
    cs == "" || (|cs| == 71 && cs[..7] == "sha256:" && IsDigest(cs[7..]))
  }

  lemma ChecksumShape(sha: string -> string, content: string)
    requires IsDigest(sha(content))
    ensures IsChecksum(Checksum(sha, content))
    ensures Checksum(sha, content) != ""
  {
  }

  lemma ChecksumFaithful(sha: string -> string, x: string, y: string)
    ensures Checksum(sha, x) == Checksum(sha, y) <==> x == y || Collision(sha, x, y)
  {
    assert Checksum(sha, x)[7..] == sha(x) && Checksum(sha, y)[7..] == sha(y);
  }

  lemma FirstColon(kb: string, rest: string)
    requires ':' !in kb
    ensures (kb + ":" + rest)[|kb|] == ':'
    ensures forall i :: 0 <= i < |kb| ==> (kb + ":" + rest)[i] != ':'
  {
    forall i | 0 <= i < |kb| ensures (kb + ":" + rest)[i] != ':' {
      assert kb[i] in kb;
    }
  }

  lemma KbIsUpToFirstColon(kb1: string, rest1: string, kb2: string, rest2: string)
    requires ':' !in kb1 && ':' !in kb2
    requires kb1 + ":" + rest1 == kb2 + ":" + rest2
    ensures kb1 == kb2 && rest1 == rest2
  {
    var whole1, whole2 := kb1 + ":" + rest1, kb2 + ":" + rest2;
    FirstColon(kb1, rest1);
    FirstColon(kb2, rest2);
    assert |kb1| == |kb2|;
    assert whole1[..|kb1|] == kb1 && whole2[..|kb2|] == kb2;
    assert whole1[|kb1| + 1..] == rest1 && whole2[|kb2| + 1..] == rest2;
  }

  lemma EndsInColon(source: string, cs: string)
    requires IsChecksum(cs)
    ensures (source + ":" + cs)[|source| + |cs|] == ':' <==> cs == ""
  {
    if cs != "" {
      assert cs[70] == cs[7..][63];
      assert cs[7..][63] in cs[7..];
    }
  }

  /** A nonempty checksum ends in a hex digit and has a fixed length, so sources that contain colons stay apart. */
  lemma SourceIsBeforeLastField(source1: string, cs1: string, source2: string, cs2: string)
    requires IsChecksum(cs1) && IsChecksum(cs2)
    requires source1 + ":" + cs1 == source2 + ":" + cs2
    ensures source1 == source2 && cs1 == cs2
  {
    var whole1, whole2 := source1 + ":" + cs1, source2 + ":" + cs2;
    assert |whole1| - 1 == |source1| + |cs1| && |whole2| - 1 == |source2| + |cs2|;
    EndsInColon(source1, cs1);
    EndsInColon(source2, cs2);
    assert |cs1| == |cs2|;
    assert whole1[..|source1|] == source1 && whole2[..|source2|] == source2;
    assert whole1[|source1| + 1..] == cs1 && whole2[|source2| + 1..] == cs2;
  }

  lemma KeyTextInjective(kb1: string, source1: string, cs1: string, kb2: string, source2: string, cs2: string)
    requires ':' !in kb1 && ':' !in kb2
    requires IsChecksum(cs1) && IsChecksum(cs2)
    requires KeyText(kb1, source1, cs1) == KeyText(kb2, source2, cs2)
    ensures kb1 == kb2 && source1 == source2 && cs1 == cs2
  {
    assert KeyText(kb1, source1, cs1) == kb1 + ":" + (source1 + ":" + cs1);
    assert KeyText(kb2, source2, cs2) == kb2 + ":" + (source2 + ":" + cs2);
    KbIsUpToFirstColon(kb1, source1 + ":" + cs1, kb2, source2 + ":" + cs2);
    SourceIsBeforeLastField(source1, cs1, source2, cs2);
  }

  /** Two enqueues share a key exactly when they agree on kb, source key and checksum, or SHA-256 collides on their key texts. */
  lemma KeyFaithfulness(sha: string -> string,
                        kb1: string, ref1: string, title1: string, cs1: string,
                        kb2: string, ref2: string, title2: string, cs2: string)
    requires ':' !in kb1 && ':' !in kb2
    requires IsChecksum(cs1) && IsChecksum(cs2)
    ensures
      (IdempotencyKey(sha, kb1, ref1, title1, cs1) == IdempotencyKey(sha, kb2, ref2, title2, cs2)) <==>
      ((kb1 == kb2 && SourceKey(ref1, title1) == SourceKey(ref2, title2) && cs1 == cs2) ||
       Collision(sha, KeyText(kb1, SourceKey(ref1, title1), cs1), KeyText(kb2, SourceKey(ref2, title2), cs2)))
  {
    var text1 := KeyText(kb1, SourceKey(ref1, title1), cs1);
    var text2 := KeyText(kb2, SourceKey(ref2, title2), cs2);
    assert ("idem:" + sha(text1))[5..] == sha(text1) && ("idem:" + sha(text2))[5..] == sha(text2);
    assert IdempotencyKey(sha, kb1, ref1, title1, cs1) == "idem:" + sha(text1);
    assert IdempotencyKey(sha, kb2, ref2, title2, cs2) == "idem:" + sha(text2);
    if text1 == text2 {
      KeyTextInjective(kb1, SourceKey(ref1, title1), cs1, kb2, SourceKey(ref2, title2), cs2);
    }
  }

  /** Why kb ids must be free of colons: otherwise two different kbs share keys. */
  lemma ColonInKbIdConfusesKeys(sha: string -> string, kb: string, middle: string, source: string, cs: string)
    requires source != ""
    ensures kb + ":" + middle != kb
    ensures IdempotencyKey(sha, kb + ":" + middle, source, "", cs) == IdempotencyKey(sha, kb, middle + ":" + source, "", cs)
  {
    assert |kb + ":" + middle| > |kb|;
    assert KeyText(kb + ":" + middle, source, cs) == KeyText(kb, middle + ":" + source, cs);
  }
}
