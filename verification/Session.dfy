/** The encrypted session of nc_crypto with symbolic primitives: key agreement from both
    ends, counters, and the replay window, for two sessions and an attacker who controls
    the network but not their keys. */
module Session {
  import opened Wrappers
  import opened Finite
  import opened Replay

  const OVERHEAD := 25
  const COUNTER_MAX: u64 := TWO64 - 1

  type Secret = nat

  datatype Label = Sid | I2R | R2I

  /** 32-byte values. Diffie-Hellman of two secrets is the same from both ends; a
      low-order point sends every secret to zero; hashing is injective. */
  datatype Value =
    | Zero
    | Public(s: Secret)
    | LowOrder(n: nat)
    | Shared(pair: set<Secret>)
    | Given(n: nat)
    | Derived(ee: Value, is_: Value, si: Value, lo: Value, hi: Value,
              sInit: Value, sResp: Value, psk: Value, tag: Label)

  function X25519(sk: Secret, pk: Value): Value {
    match pk
    case Public(t) => Shared({sk, t})
    case _ => Zero
  }

  /** Ciphertexts: only the holder of the key makes one that opens. */
  datatype Cipher = Aead(key: Value, counter: u64, plain: seq<int>) | Garbage(n: nat)

  datatype Packet =
    | Hello(eph: Value, static_: Value)
    | Data(counter: u64, ct: Cipher)
    | Malformed

  /** struct nc_crypto. */
  datatype Crypto = Crypto(
    initiator: bool, haveKey: bool, failed: bool,
    ephSk: Secret, staticSk: Option<Secret>,
    peerStatic: Option<Value>,
    txKey: Value, rxKey: Value, psk: Value, sid: Value,
    txCounter: u64, window: Window,
    requireStatic: bool)

  function Init(initiator: bool, ephSk: Secret, staticSk: Option<Secret>, psk: Value, requireStatic: bool): Crypto {
    Crypto(initiator, false, false, ephSk, staticSk, None, Zero, Zero, psk, Zero, 0, EMPTY, requireStatic)
  }

  function StaticPk(s: Option<Secret>): Value {
    match s case None => Zero case Some(k) => Public(k)
  }

  function OrZero(v: Option<Value>): Value {
    match v case None => Zero case Some(x) => x
  }

  /** nc_crypto_handshake_packet. */
  function HelloOf(c: Crypto): Packet { Hello(Public(c.ephSk), StaticPk(c.staticSk)) }

  /** memcmp on two public keys; `rank` is any order that tells them apart. */
  predicate After(rank: Value -> int, a: Value, b: Value) { rank(a) > rank(b) }

  function DeriveOut(rank: Value -> int, c: Crypto, peerEph: Value, ee: Value, is_: Value, si: Value,
      tag: Label): Value {
    var own := Public(c.ephSk);
    var lo := if After(rank, own, peerEph) then peerEph else own;
    var hi := if After(rank, own, peerEph) then own else peerEph;
    var sInit := if c.initiator then StaticPk(c.staticSk) else OrZero(c.peerStatic);
    var sResp := if c.initiator then OrZero(c.peerStatic) else StaticPk(c.staticSk);
    Derived(ee, is_, si, lo, hi, sInit, sResp, c.psk, tag)
  }

  function Static(s: Option<Secret>, pk: Value): Value {
    match s case None => Zero case Some(k) => X25519(k, pk)
  }

  function WithPeer(sk: Secret, peer: Option<Value>): Value {
    match peer case None => Zero case Some(pk) => X25519(sk, pk)
  }

  /** derive_session. */
  function Derive(rank: Value -> int, c: Crypto, peerEph: Value): Crypto {
    var ee := X25519(c.ephSk, peerEph);
    if ee == Zero then c.(failed := true)
    else
      var is_ := if c.initiator then WithPeer(c.ephSk, c.peerStatic) else Static(c.staticSk, peerEph);
      var si := if c.initiator then Static(c.staticSk, peerEph) else WithPeer(c.ephSk, c.peerStatic);
      var out := (tag: Label) => DeriveOut(rank, c, peerEph, ee, is_, si, tag);
      c.(sid := out(Sid), haveKey := true,
         txKey := out(if c.initiator then I2R else R2I),
         rxKey := out(if c.initiator then R2I else I2R))
  }

  /** consume_hello; `trusted` is the verdict of the verify_peer callback. */
  function ConsumeHello(rank: Value -> int, c: Crypto, eph: Value, static_: Value, trusted: bool): Crypto {
    var c1 := if static_ == Zero then c.(peerStatic := None) else c.(peerStatic := Some(static_));
    if c.requireStatic && static_ == Zero then c1.(failed := true)
    else if !trusted then c1.(failed := true)
    else Derive(rank, c1, eph)
  }

  /** nc_crypto_seal: the packet, or None when refused. */
  function Seal(c: Crypto, plain: seq<int>, cap: nat): (r: (Crypto, Option<Packet>)) {
    if !c.haveKey || cap < |plain| + OVERHEAD || c.txCounter == COUNTER_MAX then (c, None)
    else
      var n: u64 := c.txCounter + 1;
      (c.(txCounter := n), Some(Data(n, Aead(c.txKey, n, plain))))
  }

  /** nc_crypto_open: the plaintext delivered, or None. */
  function Open(rank: Value -> int, c: Crypto, p: Packet, trusted: bool, cap: nat): (r: (Crypto, Option<seq<int>>)) {
    if c.failed then (c, None)
    else match p
      case Hello(eph, static_) =>
        (if c.haveKey then c else ConsumeHello(rank, c, eph, static_, trusted), None)
      case Data(counter, ct) =>
        if !c.haveKey || !ct.Aead? || ct.key != c.rxKey || ct.counter != counter || |ct.plain| > cap then (c, None)
        else
          var (ok, w) := Check(c.window, counter);
          (c.(window := w), if ok then Some(ct.plain) else None)
      case Malformed => (c, None)
  }

  // ----- key agreement -----

  ghost predicate Injective(rank: Value -> int) {
    forall s: Secret, t: Secret :: rank(Public(s)) == rank(Public(t)) ==> s == t
  }

  /** Both sides consume the other's HELLO: the same session id and crossed keys, with
      any mix of identity keys, as long as the pre-shared keys are equal and each side
      accepts the identity it is shown. */
  lemma KeyAgreement(rank: Value -> int, a: Secret, b: Secret, sa: Option<Secret>, sb: Option<Secret>,
                     psk: Value, needA: bool, needB: bool)
    requires Injective(rank)
    requires (needA ==> sb.Some?) && (needB ==> sa.Some?)
    ensures var i := Init(true, a, sa, psk, needA);
            var r := Init(false, b, sb, psk, needB);
            var i' := Open(rank, i, HelloOf(r), true, 0).0;
            var r' := Open(rank, r, HelloOf(i), true, 0).0;
            && i'.haveKey && r'.haveKey && !i'.failed && !r'.failed
            && i'.sid == r'.sid && i'.txKey == r'.rxKey && i'.rxKey == r'.txKey
            && i'.txKey != i'.rxKey && i'.sid != i'.txKey && i'.sid != i'.rxKey
  {
    assert {a, b} == {b, a};
    if sa.Some? { assert {sa.value, b} == {b, sa.value}; }
    if sb.Some? { assert {a, sb.value} == {sb.value, a}; }
  }

  /** Equal session ids mean equal transcripts: ephemeral and identity keys, the shared
      secrets and the pre-shared key. Different pre-shared keys never agree. */
  lemma SidBinds(rank: Value -> int, c: Crypto, d: Crypto, ephC: Value, ephD: Value)
    requires var c' := Derive(rank, c, ephC); var d' := Derive(rank, d, ephD);
             c'.haveKey && d'.haveKey && !c'.failed && !d'.failed && c'.sid == d'.sid
    requires !c.haveKey && !d.haveKey
    ensures c.psk == d.psk
    ensures X25519(c.ephSk, ephC) == X25519(d.ephSk, ephD)
    ensures {Public(c.ephSk), ephC} == {Public(d.ephSk), ephD}
    ensures c.initiator == d.initiator ==>
            StaticPk(c.staticSk) == StaticPk(d.staticSk) && OrZero(c.peerStatic) == OrZero(d.peerStatic)
    ensures c.initiator != d.initiator ==>
            StaticPk(c.staticSk) == OrZero(d.peerStatic) && OrZero(c.peerStatic) == StaticPk(d.staticSk)
  {}

  /** A degenerate ephemeral key is refused and no key is derived from it. */
  lemma LowOrderRefused(rank: Value -> int, c: Crypto, n: nat, static_: Value, trusted: bool)
    requires !c.haveKey && !c.failed
    ensures var c' := Open(rank, c, Hello(LowOrder(n), static_), trusted, 0).0;
            c'.failed && !c'.haveKey && c'.txKey == c.txKey && c'.rxKey == c.rxKey
  {}

  // ----- the attacker -----

  /** What is kept from the attacker: the honest sides' secrets and some random values;
      and whom each side's verify_peer callback accepts. */
  datatype World = World(honest: set<Secret>, hidden: set<nat>, trustA: Value -> bool, trustB: Value -> bool)

  /** How an attacker comes by a value: public keys, bad points and random values at will,
      X25519 with a secret of its own, and hashing. Packets on the wire add nothing to
      this: a HELLO holds public keys and a plaintext holds no keys. */
  datatype Recipe =
    | Nothing
    | PublicKey(s: Secret)
    | BadPoint(n: nat)
    | Random(n: nat)
    | Exchange(own: Secret, with: Recipe)
    | Hash(ee: Recipe, is_: Recipe, si: Recipe, lo: Recipe, hi: Recipe, sInit: Recipe, sResp: Recipe, psk: Recipe,
        tag: Label)

  function Make(r: Recipe): Value {
    match r
    case Nothing => Zero
    case PublicKey(s) => Public(s)
    case BadPoint(n) => LowOrder(n)
    case Random(n) => Given(n)
    case Exchange(own, with) => X25519(own, Make(with))
    case Hash(ee, is_, si, lo, hi, sInit, sResp, psk, tag) =>
      Derived(Make(ee), Make(is_), Make(si), Make(lo), Make(hi), Make(sInit), Make(sResp), Make(psk), tag)
  }

  /** The recipe uses no honest secret and no hidden value. */
  predicate Possible(w: World, r: Recipe) {
    match r
    case Nothing | PublicKey(_) | BadPoint(_) => true
    case Random(n) => n !in w.hidden
    case Exchange(own, with) => own !in w.honest && Possible(w, with)
    case Hash(ee, is_, si, lo, hi, sInit, sResp, psk, _) =>
      && Possible(w, ee) && Possible(w, is_) && Possible(w, si) && Possible(w, lo) && Possible(w, hi)
      && Possible(w, sInit) && Possible(w, sResp) && Possible(w, psk)
  }

  /** The same seen on the value: a shared secret needs one dishonest half. */
  predicate Known(w: World, v: Value) {
    match v
    case Zero | Public(_) | LowOrder(_) => true
    case Given(n) => n !in w.hidden
    case Shared(pair) => exists s :: s in pair && s !in w.honest
    case Derived(ee, is_, si, lo, hi, sInit, sResp, psk, _) =>
      && Known(w, ee) && Known(w, is_) && Known(w, si) && Known(w, lo) && Known(w, hi)
      && Known(w, sInit) && Known(w, sResp) && Known(w, psk)
  }

  /** Whatever an attacker makes is known in that sense ... */
  lemma {:induction false} MadeIsKnown(w: World, r: Recipe)
    requires Possible(w, r)
    ensures Known(w, Make(r))
  {
    match r
    case Nothing | PublicKey(_) | BadPoint(_) | Random(_) =>
    case Exchange(own, with) =>
      MadeIsKnown(w, with);
      if Make(with).Public? { assert own in {own, Make(with).s}; }
    case Hash(ee, is_, si, lo, hi, sInit, sResp, psk, _) =>
      MadeIsKnown(w, ee);
      MadeIsKnown(w, is_);
      MadeIsKnown(w, si);
      MadeIsKnown(w, lo);
      MadeIsKnown(w, hi);
      MadeIsKnown(w, sInit);
      MadeIsKnown(w, sResp);
      MadeIsKnown(w, psk);
  }

  /** A shared secret is made of two secrets. */
  predicate Formed(v: Value) {
    match v
    case Shared(pair) => exists s, t :: s in pair && t in pair && pair == {s, t}
    case Derived(ee, is_, si, lo, hi, sInit, sResp, psk, _) =>
      && Formed(ee) && Formed(is_) && Formed(si) && Formed(lo) && Formed(hi)
      && Formed(sInit) && Formed(sResp) && Formed(psk)
    case _ => true
  }

  /** ... and what is known in that sense an attacker can make. */
  lemma {:induction false} KnownIsMade(w: World, v: Value) returns (r: Recipe)
    requires Known(w, v) && Formed(v)
    ensures Possible(w, r) && Make(r) == v
  {
    match v
    case Zero => r := Nothing;
    case Public(s) => r := PublicKey(s);
    case LowOrder(n) => r := BadPoint(n);
    case Given(n) => r := Random(n);
    case Shared(pair) =>
      var s, t :| s in pair && t in pair && pair == {s, t};
      if s !in w.honest {
        r := Exchange(s, PublicKey(t));
      } else {
        assert {t, s} == pair;
        r := Exchange(t, PublicKey(s));
      }
    case Derived(ee, is_, si, lo, hi, sInit, sResp, psk, tag) =>
      var r1 := KnownIsMade(w, ee);
      var r2 := KnownIsMade(w, is_);
      var r3 := KnownIsMade(w, si);
      var r4 := KnownIsMade(w, lo);
      var r5 := KnownIsMade(w, hi);
      var r6 := KnownIsMade(w, sInit);
      var r7 := KnownIsMade(w, sResp);
      var r8 := KnownIsMade(w, psk);
      r := Hash(r1, r2, r3, r4, r5, r6, r7, r8, tag);
  }

  lemma {:induction false} MadeIsFormed(r: Recipe)
    ensures Formed(Make(r))
  {
    match r
    case Nothing | PublicKey(_) | BadPoint(_) | Random(_) =>
    case Exchange(own, with) => DhFormed(own, Make(with));
    case Hash(ee, is_, si, lo, hi, sInit, sResp, psk, _) =>
      MadeIsFormed(ee);
      MadeIsFormed(is_);
      MadeIsFormed(si);
      MadeIsFormed(lo);
      MadeIsFormed(hi);
      MadeIsFormed(sInit);
      MadeIsFormed(sResp);
      MadeIsFormed(psk);
  }

  lemma DhFormed(sk: Secret, pk: Value)
    ensures Formed(X25519(sk, pk))
  {
    if pk.Public? { assert sk in {sk, pk.s} && pk.s in {sk, pk.s}; }
  }

  /** The secrets of a session are honest ones. */
  predicate Owned(w: World, c: Crypto) {
    c.ephSk in w.honest && (c.staticSk.Some? ==> c.staticSk.value in w.honest)
  }

  predicate Honest(w: World, v: Value) { v.Public? && v.s in w.honest }

  /** Keys derived from a HELLO are known to an attacker exactly when the ephemeral key in
      it is no honest one, the identity in it, if any, is no honest one either, and the
      pre-shared key is known. */
  lemma ExposedExactly(rank: Value -> int, w: World, c: Crypto, eph: Value, static_: Value)
    requires Owned(w, c) && !c.failed && Known(w, eph) && Known(w, static_)
    requires ConsumeHello(rank, c, eph, static_, true).haveKey && !ConsumeHello(rank, c, eph, static_, true).failed
    ensures var c' := ConsumeHello(rank, c, eph, static_, true);
      && (Known(w, c'.rxKey) <==> !Honest(w, eph) && !Honest(w, static_) && Known(w, c.psk))
      && (Known(w, c'.txKey) <==> Known(w, c'.rxKey))
  {
    assert eph.Public?;
    SharedKnown(w, c.ephSk, eph.s);
    if static_.Public? { SharedKnown(w, c.ephSk, static_.s); }
    if c.staticSk.Some? { SharedKnown(w, c.staticSk.value, eph.s); }
  }

  lemma SharedKnown(w: World, own: Secret, t: Secret)
    requires own in w.honest
    ensures Known(w, Shared({own, t})) <==> t !in w.honest
  {
    if t !in w.honest { assert t in {own, t}; }
  }

  // ----- two sessions and a network -----

  /** One side with what it has sealed and what it has delivered, in order. */
  datatype Side = Side(c: Crypto, sealed: seq<Packet>, got: seq<Packet>, plains: seq<seq<int>>)

  datatype Pair = Pair(a: Side, b: Side)

  /** What can be put on the wire: a HELLO or a sealed packet of one's own making, a
      ciphertext heard from either side under any counter, or noise. */
  datatype Attempt =
    | Greet(eph: Recipe, static_: Recipe)
    | Forge(key: Recipe, counter: u64, nonce: u64, plain: seq<int>)
    | Repeat(fromB: bool, i: nat, counter: u64)
    | Noise(counter: u64, n: nat)
    | Broken

  predicate Feasible(w: World, s: Pair, t: Attempt) {
    match t
    case Greet(eph, static_) => Possible(w, eph) && Possible(w, static_)
    case Forge(key, _, _, _) => Possible(w, key)
    case Repeat(fromB, i, _) => i < |if fromB then s.b.sealed else s.a.sealed|
    case Noise(_, _) | Broken => true
  }

  function Attempted(s: Pair, t: Attempt): Packet {
    match t
    case Greet(eph, static_) => Hello(Make(eph), Make(static_))
    case Forge(key, counter, nonce, plain) => Data(counter, Aead(Make(key), nonce, plain))
    case Repeat(fromB, i, counter) =>
      var from := if fromB then s.b.sealed else s.a.sealed;
      if i < |from| && from[i].Data? then Data(counter, from[i].ct) else Malformed
    case Noise(counter, n) => Data(counter, Garbage(n))
    case Broken => Malformed
  }

  datatype Event =
    | DoSeal(atB: bool, plain: seq<int>, cap: nat)
    | Arrive(atB: bool, what: Attempt, room: nat)

  predicate Trusts(trust: Value -> bool, p: Packet) { p.Hello? ==> trust(p.static_) }

  function SealAt(x: Side, plain: seq<int>, cap: nat): Side {
    var (c, out) := Seal(x.c, plain, cap);
    match out
    case None => x.(c := c)
    case Some(p) => x.(c := c, sealed := x.sealed + [p])
  }

  function OpenAt(rank: Value -> int, x: Side, p: Packet, trusted: bool, room: nat): Side {
    var (c, out) := Open(rank, x.c, p, trusted, room);
    match out
    case None => x.(c := c)
    case Some(plain) => x.(c := c, got := x.got + [p], plains := x.plains + [plain])
  }

  function Happen(rank: Value -> int, w: World, s: Pair, e: Event): Pair {
    match e
    case DoSeal(atB, plain, cap) =>
      if atB then s.(b := SealAt(s.b, plain, cap)) else s.(a := SealAt(s.a, plain, cap))
    case Arrive(atB, what, room) =>
      var p := Attempted(s, what);
      if !Feasible(w, s, what) then s
      else if atB then s.(b := OpenAt(rank, s.b, p, Trusts(w.trustB, p), room))
      else s.(a := OpenAt(rank, s.a, p, Trusts(w.trustA, p), room))
  }

  function Play(rank: Value -> int, w: World, s: Pair, es: seq<Event>): Pair {
    if es == [] then s else Happen(rank, w, Play(rank, w, s, es[..|es| - 1]), es[|es| - 1])
  }

  /** The keys of a session have the two labels of its role and name its identities. */
  predicate Keyed(w: World, c: Crypto) {
    && Owned(w, c)
    && (c.haveKey ==>
          && c.txKey.Derived? && c.rxKey.Derived?
          && c.txKey.tag == (if c.initiator then I2R else R2I) && c.rxKey.tag == (if c.initiator then R2I else I2R)
          && (if c.initiator then c.rxKey.sInit else c.rxKey.sResp) == StaticPk(c.staticSk)
          && (if c.initiator then c.rxKey.sResp else c.rxKey.sInit) == OrZero(c.peerStatic)
          && (if c.initiator then c.txKey.sInit else c.txKey.sResp) == StaticPk(c.staticSk)
          && (if c.initiator then c.txKey.sResp else c.txKey.sInit) == OrZero(c.peerStatic))
  }

  /** Sealed packets are numbered 1, 2, 3 and so on under one key. */
  predicate Numbered(x: Side) {
    && |x.sealed| == x.c.txCounter && (!x.c.haveKey ==> x.sealed == [])
    && forall i :: 0 <= i < |x.sealed| ==>
         x.sealed[i].Data? && x.sealed[i].ct.Aead? && x.sealed[i].counter == x.sealed[i].ct.counter == i + 1
         && x.sealed[i].ct.key == x.c.txKey
  }

  /** Nothing is opened twice; and if the attacker does not know the key, what was opened
      was sealed by the peer. */
  ghost predicate Genuine(w: World, x: Side, peer: Side, taken: set<int>) {
    && |x.plains| == |x.got| && (!x.c.haveKey ==> x.got == [])
    && (forall i :: 0 <= i < |x.got| ==> Opened(x, i, taken))
    && (forall i, j :: 0 <= i < j < |x.got| ==> Counter(x.got[i]) != Counter(x.got[j]))
    && (!Known(w, x.c.rxKey) ==> forall i :: 0 <= i < |x.got| ==> x.got[i] in peer.sealed)
    && Refines(x.c.window, taken)
  }

  function Counter(p: Packet): int { if p.Data? then p.counter else -1 }

  predicate Opened(x: Side, i: nat, taken: set<int>)
    requires i < |x.got| == |x.plains|
  {
    && x.got[i].Data? && x.got[i].ct.Aead? && x.got[i].ct.key == x.c.rxKey
    && x.plains[i] == x.got[i].ct.plain && (x.got[i].counter as int) in taken
  }

  ghost predicate Secure(w: World, x: Side, y: Side) {
    && Keyed(w, x.c) && Keyed(w, y.c) && x.c.initiator != y.c.initiator && Numbered(x) && Numbered(y)
    && (exists t :: Genuine(w, x, y, t)) && (exists t :: Genuine(w, y, x, t))
  }

  lemma SealKeeps(w: World, x: Side, y: Side, plain: seq<int>, cap: nat)
    requires Secure(w, x, y)
    ensures Secure(w, SealAt(x, plain, cap), y)
  {
    hide Refines, Known, Keyed;
    var x' := SealAt(x, plain, cap);
    var t :| Genuine(w, x, y, t);
    assert forall i :: 0 <= i < |x.got| ==> Opened(x', i, t) == Opened(x, i, t);
    assert Genuine(w, x', y, t);
    var u :| Genuine(w, y, x, u);
    assert Genuine(w, y, x', u);
    hide Genuine;
    assert Keyed(w, x'.c) by { SealKeyed(w, x, plain, cap); }
  }

  lemma SealKeyed(w: World, x: Side, plain: seq<int>, cap: nat)
    requires Keyed(w, x.c)
    ensures Keyed(w, SealAt(x, plain, cap).c)
  {}

  /** A HELLO sets keys at most once and touches nothing else. */
  lemma HelloKeeps(rank: Value -> int, w: World, x: Side, y: Side, eph: Value, static_: Value, trusted: bool, room: nat)
    requires Secure(w, x, y)
    ensures Secure(w, OpenAt(rank, x, Hello(eph, static_), trusted, room), y)
  {
    hide Refines, Known, X25519;
    var x' := OpenAt(rank, x, Hello(eph, static_), trusted, room);
    var t :| Genuine(w, x, y, t);
    var u :| Genuine(w, y, x, u);
    HelloKeyed(rank, w, x, eph, static_, trusted, room);
    hide Keyed;
    assert Genuine(w, x', y, t);
    assert Genuine(w, y, x', u);
  }

  lemma HelloKeyed(rank: Value -> int, w: World, x: Side, eph: Value, static_: Value, trusted: bool, room: nat)
    requires Keyed(w, x.c)
    ensures Keyed(w, OpenAt(rank, x, Hello(eph, static_), trusted, room).c)
  {
    hide Known, X25519;
  }

  /** A DATA packet that opens under a key the attacker does not know is one the peer
      sealed, and the window lets each counter through once. */
  lemma DataKeeps(rank: Value -> int, w: World, x: Side, y: Side, p: Packet, trusted: bool, room: nat)
    requires Secure(w, x, y) && p.Data?
    requires p.ct.Aead? ==> Known(w, p.ct.key) || HeardFrom(x, p.ct) || HeardFrom(y, p.ct)
    ensures Secure(w, OpenAt(rank, x, p, trusted, room), y)
  {
    hide Refines, Check, Known;
    var x' := OpenAt(rank, x, p, trusted, room);
    var t :| Genuine(w, x, y, t);
    var u :| Genuine(w, y, x, u);
    assert Genuine(w, y, x', u);
    assert Keyed(w, x'.c);
    var delivered := Open(rank, x.c, p, trusted, room).1.Some?;
    if !x.c.failed && x.c.haveKey && p.ct.Aead? && p.ct.key == x.c.rxKey && p.ct.counter == p.counter
        && |p.ct.plain| <= room {
      CheckRefines(x.c.window, t, p.counter);
      var (ok, win) := Check(x.c.window, p.counter);
      var t' := if ok then t + {p.counter as int} else t;
      if !Known(w, x.c.rxKey) { SealedByPeer(w, x, y, p); }
      forall i | 0 <= i < |x'.got| ensures Opened(x', i, t') {
        if i < |x.got| { assert Opened(x, i, t); }
      }
      forall i | 0 <= i < |x.got| ensures Counter(x.got[i]) in t { assert Opened(x, i, t); }
      assert Genuine(w, x', y, t');
    } else {
      assert x' == x;
    }
  }

  predicate HeardFrom(x: Side, ct: Cipher) {
    exists i :: 0 <= i < |x.sealed| && x.sealed[i].Data? && x.sealed[i].ct == ct
  }

  lemma SealedByPeer(w: World, x: Side, y: Side, p: Packet)
    requires Keyed(w, x.c) && Numbered(x) && Numbered(y) && p.Data? && p.ct.Aead?
    requires x.c.haveKey && p.ct.key == x.c.rxKey && p.ct.counter == p.counter
    requires HeardFrom(x, p.ct) || HeardFrom(y, p.ct)
    ensures p in y.sealed
  {
    if HeardFrom(y, p.ct) {
      var i :| 0 <= i < |y.sealed| && y.sealed[i].Data? && y.sealed[i].ct == p.ct;
      assert y.sealed[i] == p;
    }
  }

  lemma ArriveKeeps(rank: Value -> int, w: World, s: Pair, x: Side, y: Side, what: Attempt, trusted: bool, room: nat)
    requires Secure(w, x, y) && Feasible(w, s, what) && ((x == s.a && y == s.b) || (x == s.b && y == s.a))
    ensures Secure(w, OpenAt(rank, x, Attempted(s, what), trusted, room), y)
  {
    hide OpenAt, Secure;
    var p := Attempted(s, what);
    match what
    case Greet(eph, static_) => HelloKeeps(rank, w, x, y, Make(eph), Make(static_), trusted, room);
    case Forge(key, _, _, _) =>
      MadeIsKnown(w, key);
      DataKeeps(rank, w, x, y, p, trusted, room);
    case Repeat(fromB, i, counter) =>
      if p.Data? {
        var from := if fromB then s.b else s.a;
        assert from.sealed[i].ct == p.ct;
        DataKeeps(rank, w, x, y, p, trusted, room);
      } else {
        BrokenKeeps(rank, w, x, y, trusted, room);
      }
    case Noise(_, _) => DataKeeps(rank, w, x, y, p, trusted, room);
    case Broken => BrokenKeeps(rank, w, x, y, trusted, room);
  }

  lemma BrokenKeeps(rank: Value -> int, w: World, x: Side, y: Side, trusted: bool, room: nat)
    requires Secure(w, x, y)
    ensures Secure(w, OpenAt(rank, x, Malformed, trusted, room), y)
  {}

  lemma SecureBack(w: World, x: Side, y: Side)
    requires Secure(w, x, y)
    ensures Secure(w, y, x)
  {}

  lemma {:induction false} PlayKeeps(rank: Value -> int, w: World, s: Pair, es: seq<Event>)
    requires Secure(w, s.a, s.b)
    ensures var r := Play(rank, w, s, es); Secure(w, r.a, r.b)
    decreases |es|
  {
    hide Secure, SealAt, OpenAt, Feasible, Attempted;
    if es != [] {
      var m, e := Play(rank, w, s, es[..|es| - 1]), es[|es| - 1];
      PlayKeeps(rank, w, s, es[..|es| - 1]);
      SecureBack(w, m.a, m.b);
      match e
      case DoSeal(atB, plain, cap) =>
        if atB {
          SealKeeps(w, m.b, m.a, plain, cap);
          SecureBack(w, SealAt(m.b, plain, cap), m.a);
        } else {
          SealKeeps(w, m.a, m.b, plain, cap);
        }
      case Arrive(atB, what, room) =>
        var p := Attempted(m, what);
        if !Feasible(w, m, what) {
        } else if atB {
          ArriveKeeps(rank, w, m, m.b, m.a, what, Trusts(w.trustB, p), room);
          SecureBack(w, OpenAt(rank, m.b, p, Trusts(w.trustB, p), room), m.a);
        } else {
          ArriveKeeps(rank, w, m, m.a, m.b, what, Trusts(w.trustA, p), room);
        }
    }
  }

  /** Two sessions, before any HELLO. */
  function Start(a: Secret, b: Secret, sa: Option<Secret>, sb: Option<Secret>, pskA: Value, pskB: Value, needA: bool,
      needB: bool): Pair {
    Pair(Side(Init(true, a, sa, pskA, needA), [], [], []), Side(Init(false, b, sb, pskB, needB), [], [], []))
  }

  lemma StartIsSecure(w: World, x: Side, y: Side)
    requires Owned(w, x.c) && Owned(w, y.c) && !x.c.haveKey && !y.c.haveKey && x.c.initiator != y.c.initiator
    requires x.sealed == y.sealed == [] && x.got == y.got == [] && x.plains == y.plains == []
    requires x.c.txCounter == y.c.txCounter == 0 && x.c.window == y.c.window == EMPTY
    ensures Secure(w, x, y)
  {
    EmptyRefines();
    hide Refines;
    assert Genuine(w, x, y, {}) && Genuine(w, y, x, {});
  }

  /** What a side can rely on. Nothing is delivered twice. Under a key the attacker does
      not know, all that is delivered was sealed by the peer, with its plaintext, and
      the identity it was shown is the peer's. */
  predicate Safe(w: World, x: Side, y: Side) {
    && |x.plains| == |x.got| && Distinct(x.got) && (!x.c.haveKey ==> x.got == [])
    && (forall i :: 0 <= i < |x.got| ==> x.got[i].Data? && x.got[i].ct.Aead? && x.plains[i] == x.got[i].ct.plain)
    && (!Known(w, x.c.rxKey) && x.got != [] ==>
          (forall i :: 0 <= i < |x.got| ==> x.got[i] in y.sealed) && OrZero(x.c.peerStatic) == StaticPk(y.c.staticSk))
  }

  lemma SecureIsSafe(w: World, x: Side, y: Side)
    requires Secure(w, x, y)
    ensures Safe(w, x, y)
    ensures Distinct(x.sealed)
    ensures forall i, j :: 0 <= i < |x.sealed| && 0 <= j < |y.sealed| ==>
      x.sealed[i].Data? && y.sealed[j].Data? && x.sealed[i].ct.Aead? && y.sealed[j].ct.Aead?
          && x.sealed[i].ct.key != y.sealed[j].ct.key
  {
    hide Refines, Known;
    var t :| Genuine(w, x, y, t);
    forall i | 0 <= i < |x.got| ensures x.got[i].Data? && x.got[i].ct.Aead? && x.plains[i] == x.got[i].ct.plain {
      assert Opened(x, i, t);
    }
    if !Known(w, x.c.rxKey) && x.got != [] { PeerNamed(w, x, y); }
  }

  lemma PeerNamed(w: World, x: Side, y: Side)
    requires Secure(w, x, y) && !Known(w, x.c.rxKey) && x.got != []
    ensures OrZero(x.c.peerStatic) == StaticPk(y.c.staticSk)
  {
    hide Refines, Known;
    var t :| Genuine(w, x, y, t);
    assert Opened(x, 0, t) && x.got[0] in y.sealed;
  }

  /** In every run from the start, with an attacker who may greet, forge, repeat and garble
      at will: both sides are safe, and no counter is used twice under one key. */
  lemma NothingForgedOrRepeated(rank: Value -> int, w: World, s: Pair, es: seq<Event>)
    requires exists a, b, sa, sb, pskA, pskB, needA, needB :: s == Start(a, b, sa, sb, pskA, pskB, needA, needB)
    requires Owned(w, s.a.c) && Owned(w, s.b.c)
    ensures var r := Play(rank, w, s, es);
      && Safe(w, r.a, r.b) && Safe(w, r.b, r.a) && Distinct(r.a.sealed) && Distinct(r.b.sealed)
      && forall i, j :: 0 <= i < |r.a.sealed| && 0 <= j < |r.b.sealed| ==>
           r.a.sealed[i].Data? && r.b.sealed[j].Data? && r.a.sealed[i].ct.Aead? && r.b.sealed[j].ct.Aead?
           && r.a.sealed[i].ct.key != r.b.sealed[j].ct.key
  {
    StartIsSecure(w, s.a, s.b);
    PlayKeeps(rank, w, s, es);
    hide Play, Secure, Safe, Distinct;
    var r := Play(rank, w, s, es);
    SecureIsSafe(w, r.a, r.b);
    SecureBack(w, r.a, r.b);
    SecureIsSafe(w, r.b, r.a);
  }

  // ----- whose keys the attacker does not know -----

  /** The identity, or Zero for none, is one an attacker can show and the session lets through. */
  predicate Shows(w: World, c: Crypto, v: Value) { Known(w, v) && Formed(v) && (c.requireStatic ==> v != Zero) }

  /** Of the identities an attacker can show, the side accepts honest ones only, or its
      pre-shared key is a secret. */
  ghost predicate Guarded(w: World, c: Crypto, trust: Value -> bool) {
    !Known(w, c.psk) || forall v: Value :: trust(v) && Shows(w, c, v) ==> Honest(w, v)
  }

  /** Once it has keys, the attacker does not know them. */
  predicate Shut(w: World, c: Crypto) { Owned(w, c) && (c.haveKey ==> !Known(w, c.rxKey) && !Known(w, c.txKey)) }

  lemma OpenShut(rank: Value -> int, w: World, x: Side, s: Pair, what: Attempt, trust: Value -> bool, room: nat)
    requires Shut(w, x.c) && Guarded(w, x.c, trust) && Feasible(w, s, what)
    ensures var p := Attempted(s, what); var x' := OpenAt(rank, x, p, Trusts(trust, p), room);
      Shut(w, x'.c) && x'.c.psk == x.c.psk && x'.c.requireStatic == x.c.requireStatic
  {
    var p := Attempted(s, what);
    if p.Hello? && !x.c.failed && !x.c.haveKey && trust(p.static_) {
      MadeIsKnown(w, what.eph);
      MadeIsKnown(w, what.static_);
      MadeIsFormed(what.static_);
      var c' := ConsumeHello(rank, x.c, p.eph, p.static_, true);
      if c'.haveKey && !c'.failed {
        assert Shows(w, x.c, p.static_);
        ExposedExactly(rank, w, x.c, p.eph, p.static_);
      }
    }
    hide Known, Make, Honest, Formed;
  }

  /** A guarded side is never exposed, whatever HELLOs are injected: all it ever opens was
      sealed by the peer whose identity it was shown. */
  lemma {:induction false} GuardedIsShut(rank: Value -> int, w: World, s: Pair, es: seq<Event>)
    requires Shut(w, s.a.c) && Shut(w, s.b.c)
    ensures var r := Play(rank, w, s, es);
      && SameTerms(r.a.c, s.a.c) && SameTerms(r.b.c, s.b.c)
      && (Guarded(w, s.a.c, w.trustA) ==> Shut(w, r.a.c)) && (Guarded(w, s.b.c, w.trustB) ==> Shut(w, r.b.c))
    decreases |es|
  {
    hide Known, OpenAt, Feasible, Attempted, Formed;
    if es != [] {
      var m, e := Play(rank, w, s, es[..|es| - 1]), es[|es| - 1];
      GuardedIsShut(rank, w, s, es[..|es| - 1]);
      match e
      case DoSeal(_, _, _) =>
      case Arrive(atB, what, room) =>
        if Feasible(w, m, what) {
          TermsStay(rank, m.a, Attempted(m, what), Trusts(w.trustA, Attempted(m, what)), room);
          TermsStay(rank, m.b, Attempted(m, what), Trusts(w.trustB, Attempted(m, what)), room);
          if atB && Guarded(w, s.b.c, w.trustB) { OpenShut(rank, w, m.b, m, what, w.trustB, room); }
          if !atB && Guarded(w, s.a.c, w.trustA) { OpenShut(rank, w, m.a, m, what, w.trustA, room); }
        }
    }
  }

  predicate SameTerms(c: Crypto, d: Crypto) { c.psk == d.psk && c.requireStatic == d.requireStatic }

  lemma TermsStay(rank: Value -> int, x: Side, p: Packet, trusted: bool, room: nat)
    ensures SameTerms(OpenAt(rank, x, p, trusted, room).c, x.c)
  {}

  /** The condition is needed: under a key the attacker knows, any plaintext is delivered. */
  lemma ExposedHearsAnything(rank: Value -> int, w: World, s: Pair, x: Side, plain: seq<int>) returns (what: Attempt)
    requires x.c.haveKey && !x.c.failed && x.c.window.max < COUNTER_MAX && Known(w, x.c.rxKey) && Formed(x.c.rxKey)
    ensures Feasible(w, s, what)
    ensures OpenAt(rank, x, Attempted(s, what), true, |plain|).plains == x.plains + [plain]
  {
    var r := KnownIsMade(w, x.c.rxKey);
    var n: u64 := x.c.window.max + 1;
    what := Forge(r, n, n, plain);
  }

  /** A key no honest side has. */
  lemma OwnSecret(honest: set<Secret>) returns (t: Secret)
    ensures t !in honest
  {
    t := 0;
    var rest := honest;
    while rest != {}
      invariant forall s :: s in honest && s !in rest ==> s < t
      decreases |rest|
    {
      var s :| s in rest;
      rest := rest - {s};
      if s >= t { t := s + 1; }
    }
  }

  function At(s: Pair, atB: bool): Side { if atB then s.b else s.a }

  function TrustAt(w: World, atB: bool): Value -> bool { if atB then w.trustB else w.trustA }

  /** An unguarded side without keys takes a greeting of the attacker's and derives keys that
      are within reach. */
  lemma GreetExposes(rank: Value -> int, w: World, s: Pair, atB: bool) returns (e: Event)
    requires var x := At(s, atB);
      Owned(w, x.c) && !x.c.failed && !x.c.haveKey && Formed(x.c.psk) && !Guarded(w, x.c, TrustAt(w, atB))
    ensures var m := Happen(rank, w, s, e);
            var x, x' := At(s, atB), At(m, atB);
      && x' == x.(c := x'.c) && x'.c.haveKey && !x'.c.failed && x'.c.window == x.c.window
      && Known(w, x'.c.rxKey) && Formed(x'.c.rxKey) && At(m, !atB) == At(s, !atB)
  {
    var x, trust := At(s, atB), TrustAt(w, atB);
    var v: Value :| trust(v) && Shows(w, x.c, v) && !Honest(w, v);
    var shown := KnownIsMade(w, v);
    var t := OwnSecret(w.honest);
    var c' := ConsumeHello(rank, x.c, Public(t), v, true);
    assert c'.haveKey && !c'.failed && c'.window == x.c.window;
    ExposedExactly(rank, w, x.c, Public(t), v);
    DerivedIsFormed(rank, x.c, Public(t), v);
    hide Known, Formed, ConsumeHello, Guarded;
    assert OpenAt(rank, x, Hello(Public(t), v), true, 0) == x.(c := c');
    e := Arrive(atB, Greet(PublicKey(t), shown), 0);
  }

  /** And then delivers any plaintext the attacker likes. */
  lemma UnguardedHearsAnything(rank: Value -> int, w: World, s: Pair, atB: bool, plain: seq<int>)
    returns (es: seq<Event>)
    requires var x := At(s, atB);
      && Owned(w, x.c) && !x.c.failed && !x.c.haveKey && x.c.window.max < COUNTER_MAX && Formed(x.c.psk)
      && !Guarded(w, x.c, TrustAt(w, atB))
    ensures var r := Play(rank, w, s, es);
      && At(r, atB).plains == At(s, atB).plains + [plain] && |At(r, atB).got| == |At(s, atB).got| + 1
      && At(r, !atB) == At(s, !atB)
  {
    hide Known, Formed, Guarded, Feasible, Play;
    var first := GreetExposes(rank, w, s, atB);
    var m := Happen(rank, w, s, first);
    var what := ExposedHearsAnything(rank, w, m, At(m, atB), plain);
    var second := Arrive(atB, what, |plain|);
    es := [first, second];
    PlayTwo(rank, w, s, first, second);
  }

  lemma PlayTwo(rank: Value -> int, w: World, s: Pair, e: Event, f: Event)
    ensures Play(rank, w, s, [e, f]) == Happen(rank, w, Happen(rank, w, s, e), f)
  {
    assert [e, f][..1] == [e] && [e][..0] == [];
    hide Happen;
    assert Play(rank, w, s, [e]) == Happen(rank, w, Play(rank, w, s, []), e);
  }

  /** The side has delivered something the other never sealed. */
  predicate Fooled(s: Pair, atB: bool) {
    exists i :: 0 <= i < |At(s, atB).got| && At(s, atB).got[i] !in At(s, !atB).sealed
  }

  /** Some run from the start fools a side exactly when that side is not guarded. */
  lemma FooledExactly(rank: Value -> int, w: World, s: Pair, atB: bool)
    requires exists a, b, sa, sb, pskA, pskB, needA, needB :: s == Start(a, b, sa, sb, pskA, pskB, needA, needB)
    requires Owned(w, s.a.c) && Owned(w, s.b.c) && Formed(At(s, atB).c.psk)
    ensures (exists es :: Fooled(Play(rank, w, s, es), atB)) <==> !Guarded(w, At(s, atB).c, TrustAt(w, atB))
  {
    hide Play, Guarded, Known, Formed;
    if !Guarded(w, At(s, atB).c, TrustAt(w, atB)) {
      var es := UnguardedHearsAnything(rank, w, s, atB, []);
      var r := Play(rank, w, s, es);
      assert At(r, atB).got[0] !in At(r, !atB).sealed;
    } else {
      forall es ensures !Fooled(Play(rank, w, s, es), atB) {
        NothingForgedOrRepeated(rank, w, s, es);
        GuardedIsShut(rank, w, s, es);
      }
    }
  }

  /** The keys such a side derives from the attacker's HELLO are within its reach. */
  lemma DerivedIsFormed(rank: Value -> int, c: Crypto, eph: Value, static_: Value)
    requires Formed(c.psk) && Formed(eph) && Formed(static_)
    ensures var c' := ConsumeHello(rank, c, eph, static_, true);
      c'.haveKey && !c.haveKey ==> Formed(c'.rxKey) && Formed(c'.txKey)
  {
    hide X25519, DeriveOut;
    var c1 := if static_ == Zero then c.(peerStatic := None) else c.(peerStatic := Some(static_));
    assert Formed(OrZero(c1.peerStatic));
    hide Formed;
    var ee := X25519(c.ephSk, eph);
    var theirs, ours := WithPeer(c.ephSk, c1.peerStatic), Static(c.staticSk, eph);
    DhFormed(c.ephSk, eph);
    StaticsFormed(c.ephSk, c1.peerStatic, c.staticSk, eph);
    hide WithPeer, Static;
    OutFormed(rank, c1, eph, ee, theirs, ours, I2R);
    OutFormed(rank, c1, eph, ee, theirs, ours, R2I);
    OutFormed(rank, c1, eph, ee, ours, theirs, I2R);
    OutFormed(rank, c1, eph, ee, ours, theirs, R2I);
  }

  lemma StaticsFormed(sk: Secret, peer: Option<Value>, own: Option<Secret>, eph: Value)
    ensures Formed(WithPeer(sk, peer)) && Formed(Static(own, eph))
  {
    hide X25519;
    if peer.Some? { DhFormed(sk, peer.value); }
    if own.Some? { DhFormed(own.value, eph); }
  }

  lemma OutFormed(rank: Value -> int, c: Crypto, eph: Value, ee: Value, is_: Value, si: Value, tag: Label)
    requires Formed(c.psk) && Formed(eph) && Formed(ee) && Formed(is_) && Formed(si) && Formed(OrZero(c.peerStatic))
    ensures Formed(DeriveOut(rank, c, eph, ee, is_, si, tag))
  {}
}
