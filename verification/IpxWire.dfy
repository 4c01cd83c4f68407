/** The datagram format of netchan-ipx: an 8-byte header, then records of a
    6-byte header and a payload each. */
module IpxWire {
  import opened Bytes

  const NC_MTU := 546
  const NC_HDR := 8
  const NC_REC := 6
  const NC_MAXMSG := NC_MTU - NC_HDR - NC_REC

  const PKT_SYN: u8 := 1
  const PKT_SYNACK: u8 := 2
  const PKT_ACK: u8 := 3
  const PKT_DATA: u8 := 4
  const PKT_FIN: u8 := 5

  const MT_UNREL: u8 := 0
  const MT_REL: u8 := 1

  /** One record of a DATA packet. */
  datatype Record = Record(chan: u8, mt: u8, num: u16, data: seq<u8>)

  predicate Fits(r: Record) {
    |r.data| < 0x1_0000
  }

  predicate AllFit(rs: seq<Record>) {
    forall i :: 0 <= i < |rs| ==> Fits(rs[i])
  }

  function EncodeRecord(r: Record): (b: seq<u8>)
    requires Fits(r)
    ensures |b| == NC_REC + |r.data|
  {
    [r.chan, r.mt] + Wr16(r.num) + Wr16(|r.data|) + r.data
  }

  function EncodeRecords(rs: seq<Record>): (b: seq<u8>)
    requires AllFit(rs)
  {
    if rs == [] then [] else EncodeRecord(rs[0]) + EncodeRecords(rs[1..])
  }

  /** What the receive loop of nc_feed reads out of the bytes after the header:
      it stops at the first record that is cut short. */
  function ParseRecords(p: seq<u8>): (rs: seq<Record>)
    ensures AllFit(rs)
    decreases |p|
  {
    if |p| < NC_REC then []
    else
      var dlen := Rd16(p[4..6]);
      if NC_REC + dlen > |p| then []
      else
        [Record(p[0], p[1], Rd16(p[2..4]), p[NC_REC..NC_REC + dlen])]
        + ParseRecords(p[NC_REC + dlen..])
  }

  /** Header of every packet: connection id, type, a zero byte, the ack. */
  function Header(id: u32, ptype: u8, ack: u16): (b: seq<u8>)
    ensures |b| == NC_HDR
    ensures Rd32(b) == id && b[4] == ptype && Rd16(b[6..8]) == ack
  {
    var b := Wr32(id) + [ptype, 0] + Wr16(ack);
    assert b[6..8] == Wr16(ack);
    b
  }

  function PacketId(p: seq<u8>): u32
    requires |p| >= NC_HDR
  {
    Rd32(p)
  }

  function PacketType(p: seq<u8>): u8
    requires |p| >= NC_HDR
  {
    p[4]
  }

  function PacketAck(p: seq<u8>): u16
    requires |p| >= NC_HDR
  {
    Rd16(p[6..8])
  }

  function DataPacket(id: u32, ack: u16, rs: seq<Record>): (b: seq<u8>)
    requires AllFit(rs)
  {
    Header(id, PKT_DATA, ack) + EncodeRecords(rs)
  }

  lemma {:induction false} EncodeRecordsConcat(xs: seq<Record>, ys: seq<Record>)
    requires AllFit(xs) && AllFit(ys)
    ensures EncodeRecords(xs + ys) == EncodeRecords(xs) + EncodeRecords(ys)
  {
    if xs == [] {
      assert xs + ys == ys;
    } else {
      assert (xs + ys)[1..] == xs[1..] + ys;
      EncodeRecordsConcat(xs[1..], ys);
      assert EncodeRecord(xs[0]) + (EncodeRecords(xs[1..]) + EncodeRecords(ys))
          == EncodeRecord(xs[0]) + EncodeRecords(xs[1..]) + EncodeRecords(ys);
    }
  }

  /** Parsing what was encoded gives the records back. */
  lemma {:induction false} ParseEncoded(rs: seq<Record>)
    requires AllFit(rs)
    ensures ParseRecords(EncodeRecords(rs)) == rs
  {
    if rs != [] {
      var r := rs[0];
      var head := EncodeRecord(r);
      var tail := EncodeRecords(rs[1..]);
      var p := head + tail;
      assert p[2..4] == Wr16(r.num);
      assert p[4..6] == Wr16(|r.data|);
      assert p[NC_REC..NC_REC + |r.data|] == r.data;
      assert p[NC_REC + |r.data|..] == tail;
      ParseEncoded(rs[1..]);
    }
  }

  /** A DATA packet read back gives its id, its ack and its records. */
  lemma DataPacketRoundTrip(id: u32, ack: u16, rs: seq<Record>)
    requires AllFit(rs)
    ensures var p := DataPacket(id, ack, rs);
            && |p| >= NC_HDR
            && PacketId(p) == id
            && PacketType(p) == PKT_DATA
            && PacketAck(p) == ack
            && ParseRecords(p[NC_HDR..]) == rs
  {
    var h := Header(id, PKT_DATA, ack);
    var p := DataPacket(id, ack, rs);
    assert p[..8] == h;
    assert p[6..8] == h[6..8];
    assert p[NC_HDR..] == EncodeRecords(rs);
    ParseEncoded(rs);
  }

  /** The bytes of a packet with one record, most significant first. */
  lemma Layout(id: u32, ack: u16, r: Record)
    requires Fits(r)
    ensures var p := DataPacket(id, ack, [r]);
      && |p| == 14 + |r.data|
      && id == (p[0] as int) * 0x100_0000 + (p[1] as int) * 0x1_0000 + (p[2] as int) * 0x100 + p[3]
      && p[4] == 4 && p[5] == 0 && ack == (p[6] as int) * 0x100 + p[7]
      && p[8] == r.chan && p[9] == r.mt && r.num == (p[10] as int) * 0x100 + p[11]
      && |r.data| == (p[12] as int) * 0x100 + p[13] && p[14..] == r.data
  {
    assert [r][1..] == [];
    assert EncodeRecords([r]) == EncodeRecord(r) + [];
    assert EncodeRecord(r) + [] == EncodeRecord(r);
    var p := DataPacket(id, ack, [r]);
    assert p == Wr32(id) + [PKT_DATA, 0] + Wr16(ack) + [r.chan, r.mt] + Wr16(r.num) + Wr16(|r.data|) + r.data;
  }
}
