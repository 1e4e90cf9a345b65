/** The history two parties share: the ratchet keys in the order in which they were first
    used for sending, and the root and chain keys those determine. `keys[0]` is the
    responder's initial key, `keys[1]` the initiator's, and from there on the parties
    alternate; epoch `j` is the sending chain of the owner of `keys[j]`. */
module History {
  import opened Bytes
  import opened Terms

  datatype Role = Initiator | Responder

  const SK := Shared(0)

  function Peer(r: Role): Role {
    if r.Initiator? then Responder else Initiator
  }

  function Owner(j: nat): Role {
    if j % 2 == 1 then Initiator else Responder
  }

  /** Root key after `j` DH steps. */
  function R(keys: seq<key32>, j: nat): Key
    requires j < |keys|
  {
    if j == 0 then SK else RootKey(R(keys, j - 1), Dh(keys[j - 1], keys[j]))
  }

  /** First chain key of epoch `j`. */
  function C(keys: seq<key32>, j: nat): Key
    requires 1 <= j < |keys|
  {
    ChainKey(R(keys, j - 1), Dh(keys[j - 1], keys[j]))
  }

  /** Message key number `n` of epoch `j`. */
  function MK(keys: seq<key32>, j: nat, n: nat): Key
    requires 1 <= j < |keys|
  {
    MessageKey(Adv(C(keys, j), n))
  }

  ghost predicate KeysOk(keys: seq<key32>, lowOrder: set<key32>) {
    && |keys| >= 2
    && (forall i, j :: 0 <= i < j < |keys| ==> keys[i] != keys[j])
    && (forall i :: 0 <= i < |keys| ==> keys[i] != ZERO32 && keys[i] !in lowOrder)
  }

  ghost predicate Fresh(keys: seq<key32>, lowOrder: set<key32>, k: key32) {
    k !in keys && k != ZERO32 && k !in lowOrder
  }

  lemma {:induction false} RExtends(keys: seq<key32>, k: key32, j: nat)
    requires j < |keys|
    ensures R(keys + [k], j) == R(keys, j)
  {
    if j > 0 {
      RExtends(keys, k, j - 1);
    }
  }

  lemma CExtends(keys: seq<key32>, k: key32)
    ensures forall j :: 1 <= j < |keys| ==> C(keys + [k], j) == C(keys, j)
  {
    forall j | 1 <= j < |keys|
      ensures C(keys + [k], j) == C(keys, j)
    {
      RExtends(keys, k, j - 1);
    }
  }

  /** A root key determines how many DH steps led to it. */
  lemma {:induction false} RInjective(keys: seq<key32>, i: nat, j: nat)
    requires i < |keys| && j < |keys| && R(keys, i) == R(keys, j)
    ensures i == j
  {
    if i > 0 && j > 0 {
      RInjective(keys, i - 1, j - 1);
    }
  }

  lemma {:induction false} RSecret(keys: seq<key32>, j: nat)
    requires j < |keys|
    ensures SecretBased(R(keys, j))
  {
    if j > 0 {
      RSecret(keys, j - 1);
    }
  }

  lemma MKSecret(keys: seq<key32>, j: nat, n: nat)
    requires 1 <= j < |keys|
    ensures SecretBased(MK(keys, j, n))
  {
    RSecret(keys, j - 1);
    AdvSecretBased(C(keys, j), n);
  }

  /** A message key names its epoch and its position. */
  lemma MKInjective(keys: seq<key32>, i: nat, m: nat, j: nat, n: nat)
    requires 1 <= i < |keys| && 1 <= j < |keys| && MK(keys, i, m) == MK(keys, j, n)
    ensures i == j && m == n
  {
    AdvInjective(C(keys, i), m, C(keys, j), n);
    RInjective(keys, i - 1, j - 1);
  }

  /** The chain a party at root level `l` derives from its key and a remote key is one of the
      history exactly when the remote key is the next of the history. */
  lemma DerivedChain(keys: seq<key32>, l: nat, remote: key32, n: nat, j: nat, m: nat)
    requires l < |keys| && 1 <= j < |keys|
    requires MessageKey(Adv(ChainKey(R(keys, l), Dh(keys[l], remote)), n)) == MK(keys, j, m)
    ensures j == l + 1 && remote == keys[j] && n == m
  {
    AdvInjective(ChainKey(R(keys, l), Dh(keys[l], remote)), n, C(keys, j), m);
    RInjective(keys, l, j - 1);
    DhInjective(keys[l], remote, keys[j]);
  }

  /** A party at the last root level derives no chain of the history at all. */
  lemma DerivedBeyond(keys: seq<key32>, own: key32, remote: key32, n: nat, j: nat, m: nat)
    requires 1 <= j < |keys|
    ensures MessageKey(Adv(ChainKey(R(keys, |keys| - 1), Dh(own, remote)), n)) != MK(keys, j, m)
  {
    if MessageKey(Adv(ChainKey(R(keys, |keys| - 1), Dh(own, remote)), n)) == MK(keys, j, m) {
      AdvInjective(ChainKey(R(keys, |keys| - 1), Dh(own, remote)), n, C(keys, j), m);
      RInjective(keys, |keys| - 1, j - 1);
    }
  }
}
