/** The credential maps of the MSSQL request harness: a map from credential
    name to a mutable byte buffer (Go's `map[string][]byte`), its deep copy,
    and the map that aims the proxy service at a mock target. */
module Credentials {
  import opened GoBuiltins

  /** A credential map. Each value is a byte buffer that its consumer may
      zero once it has used it. */
  type CredentialMap = map<string, array<byte>>

  /** The bytes each buffer of `m` holds right now. */
  function Contents(m: CredentialMap): map<string, seq<byte>>
    reads m.Values
  {
    map k | k in m :: m[k][..]
  }

  /** No two names of `m` share one buffer. */
  predicate Unaliased(m: CredentialMap)
  {
    forall k1, k2 :: k1 in m && k2 in m && k1 != k2 ==> m[k1] != m[k2]
  }

  /** No buffer of `a` is a buffer of `b`, so a write through one map is
      never seen through the other. */
  predicate Separate(a: CredentialMap, b: CredentialMap)
  {
    forall k1, k2 :: k1 in a && k2 in b ==> a[k1] != b[k2]
  }

  /** Every byte of `b` is zero. */
  predicate IsZeroed(b: seq<byte>)
  {
    forall i :: 0 <= i < |b| ==> b[i] == 0
  }

  /** `cloneCredentials`: a map with the same names whose values are freshly
      allocated buffers of the same length holding the same bytes. */
  method CloneCredentials(original: CredentialMap) returns (clone: CredentialMap)
    ensures clone.Keys == original.Keys
    ensures forall k :: k in clone ==> fresh(clone[k])
    ensures forall k :: k in clone ==> clone[k].Length == original[k].Length
    ensures Contents(clone) == Contents(original)
    ensures Unaliased(clone)
    ensures Separate(clone, original)
  {
    clone := map[];
    var remaining := original.Keys;
    while remaining != {}
      invariant remaining <= original.Keys
      invariant clone.Keys == original.Keys - remaining
      invariant forall k :: k in clone ==> fresh(clone[k]) && clone[k][..] == original[k][..]
      invariant Unaliased(clone)
      decreases remaining
    {
      var key :| key in remaining;
      var value := original[key];
      var valueClone := new byte[value.Length];
      var _ := CopyBytes(valueClone, value);
      clone := clone[key := valueClone];
      remaining := remaining - {key};
    }
  }

  /** A consumer that zeroes every buffer of a map once it has used the
      credentials, as the proxy service may do with the map it is given. */
  method Zeroize(m: CredentialMap)
    modifies m.Values
    ensures forall k :: k in m ==> IsZeroed(m[k][..])
  {
    var remaining := m.Keys;
    while remaining != {}
      invariant remaining <= m.Keys
      invariant forall k, j :: k in m && k !in remaining && 0 <= j < m[k].Length ==> m[k][j] == 0
      decreases remaining
    {
      var key :| key in remaining;
      var buf := m[key];
      var i := 0;
      while i < buf.Length
        invariant 0 <= i <= buf.Length
        invariant forall j :: 0 <= j < i ==> buf[j] == 0
        invariant forall k, j :: k in m && k !in remaining && 0 <= j < m[k].Length ==> m[k][j] == 0
      {
        buf[i] := 0;
        i := i + 1;
      }
      remaining := remaining - {key};
    }
  }

  /** A consumer that zeroes the clone leaves the original's bytes as they were. */
  method ZeroizedCloneKeepsOriginal(original: CredentialMap) returns (clone: CredentialMap)
    ensures clone.Keys == original.Keys
    ensures forall k :: k in clone ==> IsZeroed(clone[k][..])
    ensures Contents(original) == old(Contents(original))
  {
    clone := CloneCredentials(original);
    Zeroize(clone);
  }

  /** Zeroing the original leaves the clone holding the original's old bytes. */
  method ZeroizedOriginalKeepsClone(original: CredentialMap) returns (clone: CredentialMap)
    modifies original.Values
    ensures forall k :: k in original ==> IsZeroed(original[k][..])
    ensures Contents(clone) == old(Contents(original))
  {
    clone := CloneCredentials(original);
    Zeroize(original);
  }

  /** Every entry of `entries` written over `base`: the names of both, the
      value from `entries` where it has one and from `base` otherwise. */
  function Overlay<V>(base: map<string, V>, entries: map<string, V>): (r: map<string, V>)
    ensures r.Keys == base.Keys + entries.Keys
    ensures forall k :: k in entries ==> r[k] == entries[k]
    ensures forall k :: k in base && k !in entries ==> r[k] == base[k]
  {
    base + entries
  }

  /** The `for key, value := range credentials { base[key] = value }` loop of
      the merge: assigns each entry of `entries` into `base`, one name at a
      time in no particular order. The values are assigned, not copied. */
  method PutAll<V>(base: map<string, V>, entries: map<string, V>) returns (r: map<string, V>)
    ensures r == Overlay(base, entries)
  {
    r := base;
    var remaining := entries.Keys;
    while remaining != {}
      invariant remaining <= entries.Keys
      invariant r.Keys == base.Keys + (entries.Keys - remaining)
      invariant forall k :: k in entries && k !in remaining ==> r[k] == entries[k]
      invariant forall k :: k in r && k !in entries ==> r[k] == base[k]
      invariant forall k :: k in remaining && k in base ==> r[k] == base[k]
      decreases remaining
    {
      var key :| key in remaining;
      r := r[key := entries[key]];
      remaining := remaining - {key};
    }
  }

  /** The credentials handed to the proxy service when it is aimed at a mock
      target: `host` and `port` set to the mock's address, then every caller
      entry on top. A caller's own `host` or `port` therefore wins over the
      mock's address. */
  function MergedCredentials<V>(mockHost: V, mockPort: V, credentials: map<string, V>): (r: map<string, V>)
    ensures r.Keys == credentials.Keys + {"host", "port"}
    ensures forall k :: k in credentials ==> r[k] == credentials[k]
    ensures "host" !in credentials ==> r["host"] == mockHost
    ensures "port" !in credentials ==> r["port"] == mockPort
  {
    Overlay(map["host" := mockHost, "port" := mockPort], credentials)
  }

  /** Reading the buffers of a merged map gives the merge of what the mock's
      buffers and the caller's buffers hold. */
  lemma ContentsOfMerged(hostBuf: array<byte>, portBuf: array<byte>, credentials: CredentialMap)
    ensures Contents(MergedCredentials(hostBuf, portBuf, credentials))
         == MergedCredentials(hostBuf[..], portBuf[..], Contents(credentials))
  {
  }

  /** The "Gather credentials" step of `proxyToCreatedMock` and `proxyToMock`:
      `host` and `port` become new buffers holding the bytes of the mock's
      host and port strings, then the caller's entries are assigned over them.
      Caller buffers are shared with the result, not copied. */
  method GatherCredentials(mockHost: string, mockPort: string, credentials: CredentialMap)
    returns (base: CredentialMap)
    ensures base.Keys == credentials.Keys + {"host", "port"}
    ensures forall k :: k in credentials ==> base[k] == credentials[k]
    ensures "host" !in credentials ==> fresh(base["host"])
    ensures "port" !in credentials ==> fresh(base["port"])
    ensures Contents(base) == MergedCredentials(Utf8Encode(mockHost), Utf8Encode(mockPort), Contents(credentials))
  {
    var hostBytes := Utf8Encode(mockHost);
    var portBytes := Utf8Encode(mockPort);
    var hostBuf := new byte[|hostBytes|](i requires 0 <= i < |hostBytes| => hostBytes[i]);
    var portBuf := new byte[|portBytes|](i requires 0 <= i < |portBytes| => portBytes[i]);
    base := map["host" := hostBuf, "port" := portBuf];
    base := PutAll(base, credentials);
    assert hostBuf[..] == hostBytes && portBuf[..] == portBytes;
    ContentsOfMerged(hostBuf, portBuf, credentials);
  }
}
