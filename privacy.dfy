/** The network address the TypeScript handler keys abuse tracking by: the client
    address taken from the request and its coarse prefix (`extractIpPrefix`). Both the
    subject and the prefix are hashed with the oracle `sha256` before they are stored.
    `{:induction false}` marks lemmas whose proof is written out: an induction of
    its own, or a direct argument for which Dafny's automatic induction hypotheses
    would only add solver work. */
module Privacy {
  import opened JsRuntime

  const Ipv4Suffix := ".0/24"
  const Ipv6Suffix := "::/56"

  /** `extractIpPrefix(ip)`: an address with a `.` keeps its first three dot-parts and
      gets `.0/24`; any other keeps its first four colon-groups and gets `::/56`. */
  function ExtractIpPrefix(ip: string): (r: string)
    ensures '.' in ip ==> r == ip[..CutIndex(ip, '.', 3)] + Ipv4Suffix
    ensures '.' !in ip ==> r == ip[..CutIndex(ip, ':', 4)] + Ipv6Suffix
  {
    if '.' in ip then
      var parts := Split(ip, '.');
      JoinFirstPieces(ip, '.', 3);
      Join(parts[..Min(3, |parts|)], '.') + Ipv4Suffix
    else
      var groups := Split(ip, ':');
      JoinFirstPieces(ip, ':', 4);
      Join(groups[..Min(4, |groups|)], ':') + Ipv6Suffix
  }

  lemma CountAppend(a: string, b: string, c: char)
    ensures Count(a + b, c) == Count(a, c) + Count(b, c)
  {
    if a != [] {
      assert (a + b)[1..] == a[1..] + b;
      CountAppend(a[1..], b, c);
    } else {
      assert a + b == b;
    }
  }

  lemma CountAbsent(s: string, c: char)
    requires c !in s
    ensures Count(s, c) == 0
  {
    if s != [] {
      assert s[0] in s;
      assert forall x :: x in s[1..] ==> x in s;
      CountAbsent(s[1..], c);
    }
  }

  /** A later cut point passes at least one more separator. */
  lemma {:induction false} CountGrows(s: string, c: char, i: nat, j: nat)
    requires i < j <= |s| && s[i] == c
    ensures Count(s[..j], c) >= Count(s[..i], c) + 1
  {
    assert s[..j] == s[..i] + s[i..j];
    CountAppend(s[..i], s[i..j], c);
    assert s[i..j][0] == c;
  }

  /** The cut point is the only index with its three properties. */
  lemma CutIndexUnique(s: string, c: char, n: nat, k: nat)
    requires n >= 1 && k <= |s|
    requires k < |s| ==> s[k] == c
    requires Count(s[..k], c) == Min(n - 1, Count(s, c))
    ensures k == CutIndex(s, c, n)
  {
    var k' := CutIndex(s, c, n);
    assert s[..|s|] == s;
    if k < k' {
      CountGrows(s, c, k, k');
    } else if k' < k {
      CountGrows(s, c, k', k);
    }
  }

  /** Coarsening is idempotent once the address has the parts it keeps: a prefix fed
      back in comes out unchanged. */
  lemma {:induction false} IpPrefixIdempotent(ip: string)
    requires ('.' in ip && Count(ip, '.') >= 2) || ('.' !in ip && Count(ip, ':') >= 3)
    ensures ExtractIpPrefix(ExtractIpPrefix(ip)) == ExtractIpPrefix(ip)
  {
    var r := ExtractIpPrefix(ip);
    if '.' in ip {
      var p := ip[..CutIndex(ip, '.', 3)];
      assert r == p + Ipv4Suffix;
      CountAppend(p, Ipv4Suffix, '.');
      assert r[..|p|] == p;
      assert r[|p|] == '.';
      CutIndexUnique(r, '.', 3, |p|);
    } else {
      var p := ip[..CutIndex(ip, ':', 4)];
      assert r == p + Ipv6Suffix;
      assert '.' !in r by {
        assert forall i :: 0 <= i < |p| ==> p[i] == ip[i];
      }
      CountAppend(p, Ipv6Suffix, ':');
      assert r[..|p|] == p;
      assert r[|p|] == ':';
      CutIndexUnique(r, ':', 4, |p|);
    }
  }

  /** A dotted address keeps its first three parts: `a.b.c.rest` becomes `a.b.c.0/24`. */
  lemma {:induction false} Ipv4KeepsThreeParts(a: string, b: string, c: string, rest: string)
    requires '.' !in a && '.' !in b && '.' !in c
    ensures ExtractIpPrefix(a + "." + b + "." + c + "." + rest) == a + "." + b + "." + c + Ipv4Suffix
  {
    var p := a + "." + b + "." + c;
    var ip := p + "." + rest;
    assert a + "." + b + "." + c + "." + rest == ip;
    assert ip[|p|] == '.';
    assert ip[..|p|] == p;
    CountAbsent(a, '.');
    CountAbsent(b, '.');
    CountAbsent(c, '.');
    CountAppend(a, ".", '.');
    CountAppend(a + ".", b, '.');
    CountAppend(a + "." + b, ".", '.');
    CountAppend(a + "." + b + ".", c, '.');
    CountAppend(p, ".", '.');
    CountAppend(p + ".", rest, '.');
    CutIndexUnique(ip, '.', 3, |p|);
  }

  /** An address without dots keeps its first four colon-groups: `a:b:c:d:rest` becomes
      `a:b:c:d::/56`. */
  lemma {:induction false} Ipv6KeepsFourGroups(a: string, b: string, c: string, d: string, rest: string)
    requires ':' !in a && ':' !in b && ':' !in c && ':' !in d
    requires '.' !in a + ":" + b + ":" + c + ":" + d + ":" + rest
    ensures ExtractIpPrefix(a + ":" + b + ":" + c + ":" + d + ":" + rest)
            == a + ":" + b + ":" + c + ":" + d + Ipv6Suffix
  {
    var p := a + ":" + b + ":" + c + ":" + d;
    var ip := p + ":" + rest;
    assert a + ":" + b + ":" + c + ":" + d + ":" + rest == ip;
    assert ip[|p|] == ':';
    assert ip[..|p|] == p;
    CountAbsent(a, ':');
    CountAbsent(b, ':');
    CountAbsent(c, ':');
    CountAbsent(d, ':');
    CountAppend(a, ":", ':');
    CountAppend(a + ":", b, ':');
    CountAppend(a + ":" + b, ":", ':');
    CountAppend(a + ":" + b + ":", c, ':');
    CountAppend(a + ":" + b + ":" + c, ":", ':');
    CountAppend(a + ":" + b + ":" + c + ":", d, ':');
    CountAppend(p, ":", ':');
    CountAppend(p + ":", rest, ':');
    CutIndexUnique(ip, ':', 4, |p|);
  }

  /** The address the handler attributes the request to: the first entry of
      `x-forwarded-for`, trimmed, else the socket's remote address, else `unknown`. */
  function ClientIp(forwardedFor: Option<string>, remoteAddress: Option<string>): (ip: string)
    ensures forwardedFor.Some? ==>
              ip == Trim(forwardedFor.value[..CutIndex(forwardedFor.value, ',', 1)]) && ',' !in ip
    ensures forwardedFor.None? ==> ip == remoteAddress.GetOr("unknown")
  {
    match forwardedFor
    case Some(f) =>
      var parts := Split(f, ',');
      JoinFirstPieces(f, ',', 1);
      assert parts[..1] == [parts[0]];
      Trim(parts[0])
    case None => remoteAddress.GetOr("unknown")
  }
}
