/** The packet codec of dps150/protocol.py: checksum, frame encoding and frame decoding. */
module Protocol {
  import opened Base
  import C = Constants

  /** Sum of the payload bytes, accumulated front to back. */
  function Sum(data: seq<byte>): nat {
    if data == [] then 0 else Sum(data[..|data| - 1]) + data[|data| - 1]
  }

  /** The protocol checksum: type code, length and payload bytes, modulo 256.
      Header and command bytes are not part of it. */
  function Checksum(typeCode: int, data: seq<byte>): byte {
    (typeCode + |data| + Sum(data)) % 256
  }

  /** A frame on the wire: [header, command, type, length, payload..., checksum]. */
  function Frame(header: byte, command: byte, typeCode: byte, data: seq<byte>): seq<byte>
    requires |data| <= 255
  {
    [header, command, typeCode, |data|] + data + [Checksum(typeCode, data)]
  }

  /** calculate_checksum: the header and command arguments are accepted and ignored. */
  method CalculateChecksum(header: int, command: int, typeCode: int, data: seq<byte>) returns (checksum: byte)
    ensures checksum == (typeCode + |data| + Sum(data)) % 256
  {
    var total := typeCode + |data|;
    for k := 0 to |data|
      invariant total == typeCode + |data| + Sum(data[..k])
    {
      assert data[..k + 1][..k] == data[..k];
      total := total + data[k];
    }
    assert data[..|data|] == data;
    checksum := total % 256;
  }

  /** encode_packet: builds the outbound frame byte by byte. Appending a command, type code
      or length outside 0..255 to the byte array raises ValueError. */
  method EncodePacket(command: int, typeCode: int, data: seq<byte>) returns (r: Result<seq<byte>>)
    ensures r.Ok? <==> 0 <= command < 256 && 0 <= typeCode < 256 && |data| <= 255
    ensures r.Err? ==> r.error == ValueError
    ensures r.Ok? ==> |r.value| == |data| + 5 && r.value == Frame(C.HeaderOutput, command, typeCode, data)
  {
    if !(0 <= command < 256) || !(0 <= typeCode < 256) || !(|data| <= 255) {
      return Err(ValueError);
    }
    var packet: seq<byte> := [];
    packet := packet + [C.HeaderOutput];
    packet := packet + [command];
    packet := packet + [typeCode];
    packet := packet + [|data|];
    packet := packet + data;
    var checksum := CalculateChecksum(C.HeaderOutput, command, typeCode, data);
    packet := packet + [checksum];
    r := Ok(packet);
  }

  /** encode_byte_packet: a one-byte payload; a value outside 0..255 raises ValueError. */
  method EncodeBytePacket(command: int, typeCode: int, value: int) returns (r: Result<seq<byte>>)
    ensures !(0 <= value <= 255) ==> r == Err(ValueError)
    ensures !(0 <= command < 256 && 0 <= typeCode < 256) ==> r == Err(ValueError)
    ensures 0 <= value <= 255 && 0 <= command < 256 && 0 <= typeCode < 256 ==>
              r.Ok? && |r.value| == 6 && r.value == Frame(C.HeaderOutput, command, typeCode, [value])
  {
    if !(0 <= value <= 255) {
      return Err(ValueError);
    }
    r := EncodePacket(command, typeCode, [value]);
  }

  /** A decoded inbound frame: (command, type_code, length, data). */
  datatype Packet = Packet(command: byte, typeCode: byte, length: byte, data: seq<byte>)

  /** decode_packet: the four checks run in this order; bytes after the checksum are ignored. */
  function DecodePacket(packet: seq<byte>): (r: Result<Packet>)
    ensures |packet| < 5 ==> r == Err(ProtocolError(PacketTooShort))
    ensures |packet| >= 5 && packet[0] != C.HeaderInput ==> r == Err(ProtocolError(InvalidHeader))
    ensures |packet| >= 5 && packet[0] == C.HeaderInput && |packet| < 5 + packet[3] as int ==>
              r == Err(ProtocolError(PacketIncomplete))
    ensures |packet| >= 5 && packet[0] == C.HeaderInput && |packet| >= 5 + packet[3] as int &&
            packet[4 + packet[3]] != Checksum(packet[2], packet[4..4 + packet[3]]) ==>
              r == Err(ProtocolError(ChecksumMismatch))
    ensures r.Ok? ==> r.value.length == |r.value.data| && |packet| >= 5 + r.value.length as int &&
                      packet[..5 + r.value.length as int] == Frame(C.HeaderInput, r.value.command, r.value.typeCode, r.value.data)
  {
    if |packet| < 5 then Err(ProtocolError(PacketTooShort))
    else if packet[0] != C.HeaderInput then Err(ProtocolError(InvalidHeader))
    else
      var command, typeCode, length := packet[1], packet[2], packet[3];
      if |packet| < 5 + length as int then Err(ProtocolError(PacketIncomplete))
      else
        var data := packet[4..4 + length];
        if packet[4 + length] != Checksum(typeCode, data) then Err(ProtocolError(ChecksumMismatch))
        else
          assert packet[..5 + length] == [packet[0], command, typeCode, length] + data + [packet[4 + length]];
          Ok(Packet(command, typeCode, length, data))
  }

  /** Decoding an inbound frame gives back what was framed, whatever follows it. */
  lemma DecodeFrame(command: byte, typeCode: byte, data: seq<byte>, rest: seq<byte>)
    requires |data| <= 255
    ensures DecodePacket(Frame(C.HeaderInput, command, typeCode, data) + rest) == Ok(Packet(command, typeCode, |data|, data))
  {
    var p := Frame(C.HeaderInput, command, typeCode, data) + rest;
    assert p[0] == C.HeaderInput && p[1] == command && p[2] == typeCode && p[3] == |data|;
    assert p[4..4 + |data|] == data;
    assert p[4 + |data|] == Checksum(typeCode, data);
  }

  /** Round trip: an encoded frame with its header turned to the inbound 0xF0 decodes to
      (command, type, len(data), data). */
  lemma EncodeDecodeRoundTrip(command: byte, typeCode: byte, data: seq<byte>, rest: seq<byte>)
    requires |data| <= 255
    ensures DecodePacket([C.HeaderInput] + Frame(C.HeaderOutput, command, typeCode, data)[1..] + rest)
            == Ok(Packet(command, typeCode, |data|, data))
  {
    assert [C.HeaderInput] + Frame(C.HeaderOutput, command, typeCode, data)[1..] == Frame(C.HeaderInput, command, typeCode, data);
    DecodeFrame(command, typeCode, data, rest);
  }

  /** Changing the payload byte at k changes the sum by exactly the difference. */
  lemma {:induction false} SumUpdate(data: seq<byte>, k: nat, v: byte)
    requires k < |data|
    ensures Sum(data[k := v]) == Sum(data) - data[k] + v
  {
    var n := |data|;
    if k == n - 1 {
      assert data[k := v][..n - 1] == data[..n - 1];
    } else {
      assert data[k := v][..n - 1] == data[..n - 1][k := v];
      SumUpdate(data[..n - 1], k, v);
    }
  }

  /** Any single corrupted payload byte changes the checksum, so the frame no longer decodes. */
  lemma ChecksumDetectsPayloadChange(typeCode: int, data: seq<byte>, k: nat, v: byte)
    requires k < |data| && v != data[k]
    ensures Checksum(typeCode, data[k := v]) != Checksum(typeCode, data)
  {
    SumUpdate(data, k, v);
    var x := typeCode + |data| + Sum(data);
    var d := v - data[k];
    assert -256 < d < 256 && d != 0;
    assert typeCode + |data[k := v]| + Sum(data[k := v]) == x + d;
  }

  /** A frame whose payload byte was corrupted in transit is rejected by decode_packet. */
  lemma CorruptedPayloadRejected(command: byte, typeCode: byte, data: seq<byte>, k: nat, v: byte)
    requires |data| <= 255 && k < |data| && v != data[k]
    ensures DecodePacket(Frame(C.HeaderInput, command, typeCode, data)[4 + k := v]) == Err(ProtocolError(ChecksumMismatch))
  {
    var p := Frame(C.HeaderInput, command, typeCode, data)[4 + k := v];
    assert p[4..4 + |data|] == data[k := v];
    ChecksumDetectsPayloadChange(typeCode, data, k, v);
  }
}
