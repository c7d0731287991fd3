/** The byte stream behind a run's checksum chain. */
module Hashing {

  /** What checksum_chain feeds to the digest. */
  function Encoded(checksums: seq<string>): string {
    if checksums == [] then "" else checksums[0] + ['\n'] + Encoded(checksums[1..])
  }

  lemma {:induction false} EncodedConcat(a: seq<string>, b: seq<string>)
    ensures Encoded(a + b) == Encoded(a) + Encoded(b)
  {
    if a == [] {
      assert a + b == b;
    } else {
      assert (a + b)[1..] == a[1..] + b;
      EncodedConcat(a[1..], b);
    }
  }

  /** The digest updates, in order. */
  method ChecksumChain(checksums: seq<string>) returns (stream: string)
    ensures stream == Encoded(checksums)
  {
    stream := "";
    for i := 0 to |checksums|
      invariant stream == Encoded(checksums[..i])
    {
      stream := stream + checksums[i];
      stream := stream + ['\n'];
      assert checksums[..i + 1] == checksums[..i] + [checksums[i]];
      EncodedConcat(checksums[..i], [checksums[i]]);
      assert [checksums[i]][1..] == [];
    }
    assert checksums[..|checksums|] == checksums;
  }

  ghost predicate OneLine(s: string) {
    '\n' !in s
  }

  /** A line is read back up to its terminator. */
  lemma FirstLine(a: string, b: string, x: string, y: string)
    requires OneLine(a) && OneLine(b) && a + ['\n'] + x == b + ['\n'] + y
    ensures a == b && x == y
  {
    var s, t := a + ['\n'] + x, b + ['\n'] + y;
    assert forall i :: 0 <= i < |a| ==> s[i] == a[i];
    assert forall i :: 0 <= i < |b| ==> t[i] == b[i];
    assert s[|a|] == t[|b|] == '\n';
    assert a == s[..|a|] && b == t[..|b|];
    assert x == s[|a| + 1..] && y == t[|b| + 1..];
  }

  /** The encoding is unambiguous for checksums without line breaks: different lists
      of batches never share a stream, whatever their lengths. */
  lemma {:induction false} EncodingIsInjective(a: seq<string>, b: seq<string>)
    requires forall i :: 0 <= i < |a| ==> OneLine(a[i])
    requires forall i :: 0 <= i < |b| ==> OneLine(b[i])
    requires Encoded(a) == Encoded(b)
    ensures a == b
  {
    if a != [] && b != [] {
      FirstLine(a[0], b[0], Encoded(a[1..]), Encoded(b[1..]));
      EncodingIsInjective(a[1..], b[1..]);
      assert a == [a[0]] + a[1..] && b == [b[0]] + b[1..];
    }
  }

  /** The condition is needed: a line break inside a checksum can imitate the separator. */
  lemma LineBreaksAreAmbiguous()
    ensures Encoded(["a", "b"]) == Encoded(["a\nb"])
  {
  }
}
