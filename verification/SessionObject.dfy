/** struct nc_crypto updated in place; `View` reads it as the value of module Session. */
module SessionObject {
  import opened Replay
  import opened Session
  import opened Wrappers

  class CryptoSession {
    var initiator: bool
    var haveKey: bool
    var failed: bool
    var ephSk: Secret
    var staticSk: Option<Secret>
    var peerStatic: Option<Value>
    var txKey: Value
    var rxKey: Value
    var psk: Value
    var sid: Value
    var txCounter: u64
    var rxMax: u64
    var rxWindow: u64
    var requireStatic: bool

    ghost function View(): Crypto
      reads this
    {
      Crypto(initiator, haveKey, failed, ephSk, staticSk, peerStatic, txKey, rxKey, psk, sid,
             txCounter, Window(rxMax, rxWindow), requireStatic)
    }

    constructor (first: bool, eph: Secret, identity: Option<Secret>, shared: Value, need: bool)
      ensures View() == Init(first, eph, identity, shared, need)
    {
      initiator, haveKey, failed := first, false, false;
      ephSk, staticSk, peerStatic := eph, identity, None;
      txKey, rxKey, psk, sid := Zero, Zero, shared, Zero;
      txCounter, rxMax, rxWindow, requireStatic := 0, 0, 0, need;
    }

    /** derive_session: 0, or -1 on a degenerate peer key. */
    method DeriveSession(rank: Value -> int, peerEph: Value) returns (rc: int)
      modifies this`haveKey, this`sid, this`txKey, this`rxKey
      ensures rc == if X25519(ephSk, peerEph) == Zero then -1 else 0
      ensures rc != 0 ==> View() == old(View())
      ensures rc == 0 ==> View() == Derive(rank, old(View()), peerEph)
    {
      var ee := X25519(ephSk, peerEph);
      if ee == Zero {
        return -1;
      }
      var is_, si := Zero, Zero;
      if initiator {
        if peerStatic.Some? { is_ := X25519(ephSk, peerStatic.value); }
        if staticSk.Some? { si := X25519(staticSk.value, peerEph); }
      } else {
        if staticSk.Some? { is_ := X25519(staticSk.value, peerEph); }
        if peerStatic.Some? { si := X25519(ephSk, peerStatic.value); }
      }
      var lo, hi := Public(ephSk), peerEph;
      if After(rank, Public(ephSk), peerEph) {
        lo, hi := peerEph, Public(ephSk);
      }
      var own, other := StaticPk(staticSk), OrZero(peerStatic);
      var sInit, sResp := if initiator then own else other, if initiator then other else own;
      sid := Derived(ee, is_, si, lo, hi, sInit, sResp, psk, Sid);
      var i2r := Derived(ee, is_, si, lo, hi, sInit, sResp, psk, I2R);
      var r2i := Derived(ee, is_, si, lo, hi, sInit, sResp, psk, R2I);
      if initiator {
        txKey, rxKey := i2r, r2i;
      } else {
        txKey, rxKey := r2i, i2r;
      }
      haveKey := true;
      rc := 0;
    }

    /** consume_hello. */
    method ConsumeHello(rank: Value -> int, eph: Value, static_: Value, trusted: bool)
      modifies this`failed, this`peerStatic, this`haveKey, this`sid, this`txKey, this`rxKey
      ensures View() == Session.ConsumeHello(rank, old(View()), eph, static_, trusted)
    {
      hide Derive, X25519;
      peerStatic := if static_ == Zero then None else Some(static_);
      if requireStatic && static_ == Zero {
        failed := true;
        return;
      }
      if !trusted {
        failed := true;
        return;
      }
      ghost var c1 := View();
      Degenerate(rank, c1, eph);
      assert Session.ConsumeHello(rank, old(View()), eph, static_, trusted) == Derive(rank, c1, eph);
      var rc := DeriveSession(rank, eph);
      if rc != 0 {
        failed := true;
      }
    }

    /** nc_crypto_seal: a packet the peer's session opens, under a counter above all those used
        before, or a refusal that changes nothing. */
    method Seal(plain: seq<int>, cap: nat) returns (out: Option<Packet>)
      modifies this`txCounter
      ensures (View(), out) == Session.Seal(old(View()), plain, cap)
      ensures out.None? <==> !haveKey || cap < |plain| + OVERHEAD || old(txCounter) == COUNTER_MAX
      ensures out.None? ==> View() == old(View())
      ensures out.Some? ==> out.value.Data? && out.value.counter == txCounter > old(txCounter)
      ensures forall rank: Value -> int, peer: Crypto, taken: set<int> | out.Some?
                && peer.haveKey && !peer.failed && peer.rxKey == txKey && Refines(peer.window, taken)
                && (forall c <- taken :: c <= old(txCounter)) ::
                Session.Open(rank, peer, out.value, true, |plain|).1 == Some(plain)
    {
      if !haveKey || cap < |plain| + OVERHEAD || txCounter == COUNTER_MAX {
        return None;
      }
      txCounter := txCounter + 1;
      out := Some(Data(txCounter, Aead(txKey, txCounter, plain)));
      hide Check, Refines;
      forall rank: Value -> int, peer: Crypto, taken: set<int> | peer.haveKey && !peer.failed && peer.rxKey == txKey
        && Refines(peer.window, taken) && (forall c <- taken :: c <= old(txCounter))
        ensures Session.Open(rank, peer, out.value, true, |plain|).1 == Some(plain)
      {
        FreshAccepted(peer.window, taken, txCounter);
      }
    }

    /** replay_check_and_update: decides as a plain set of the counters taken so far would,
        and adds the counter to it. */
    method ReplayCheck(counter: u64) returns (ok: bool)
      modifies this`rxMax, this`rxWindow
      ensures var (r, w) := Check(old(View()).window, counter); ok == r && View() == old(View()).(window := w)
      ensures forall taken: set<int> | Refines(old(View()).window, taken) ::
                && (ok <==> Acceptable(taken, old(rxMax), counter))
                && Refines(View().window, if ok then taken + {counter as int} else taken)
    {
      hide Shl, SetBit, Bit, Refines, Acceptable;
      forall taken: set<int> | Refines(View().window, taken)
        ensures var (r, w) := Check(View().window, counter);
          && (r <==> Acceptable(taken, rxMax, counter))
          && Refines(w, if r then taken + {counter as int} else taken)
      {
        CheckRefines(View().window, taken, counter);
      }
      if counter == 0 {
        return false;
      }
      if counter > rxMax {
        var shift := counter - rxMax;
        rxWindow := if shift >= 64 then 0 else Shl(rxWindow, shift);
        rxWindow := SetBit(rxWindow, 0);
        rxMax := counter;
        return true;
      }
      var diff := rxMax - counter;
      if diff >= 64 || Bit(rxWindow, diff) {
        return false;
      }
      rxWindow := SetBit(rxWindow, diff);
      ok := true;
    }

    /** nc_crypto_open. */
    method Open(rank: Value -> int, p: Packet, trusted: bool, cap: nat) returns (out: Option<seq<int>>)
      modifies this
      ensures (View(), out) == Session.Open(rank, old(View()), p, trusted, cap)
    {
      hide Check, Session.ConsumeHello;
      out := None;
      if failed {
        return;
      }
      match p {
        case Hello(eph, static_) =>
          if !haveKey {
            ConsumeHello(rank, eph, static_, trusted);
          }
        case Data(counter, ct) =>
          if !haveKey || !ct.Aead? || ct.key != rxKey || ct.counter != counter || |ct.plain| > cap {
            return;
          }
          var ok := ReplayCheck(counter);
          if ok {
            out := Some(ct.plain);
          }
        case Malformed =>
      }
    }
  }

  lemma FreshAccepted(w: Window, taken: set<int>, counter: u64)
    requires Refines(w, taken) && counter > 0 && forall c <- taken :: c < counter as int
    ensures Check(w, counter).0
  {
    CheckRefines(w, taken, counter);
  }

  lemma Degenerate(rank: Value -> int, c: Crypto, peerEph: Value)
    ensures X25519(c.ephSk, peerEph) == Zero ==> Derive(rank, c, peerEph) == c.(failed := true)
  {}
}
