/** Protocol detection by the first bytes of a stream (detect.go). */
module Detection {

  type byte = x: int | 0 <= x < 256

  datatype Protocol = Unknown | Socks5 | WireGuard | OpenVPN

  /** An opcode of a client hard reset (1, 7 or 10 in the high five bits) with key id 0 in the low three. */
  predicate IsReset(b: byte) {
    var op := b / 8;
    (op == 1 || op == 7 || op == 10) && b % 8 == 0
  }

  function Detect(buf: seq<byte>): Protocol {
    if |buf| >= 3 && buf[0] == 5 then Socks5
    else if 4 <= |buf| <= 148 && buf[0] in {1, 2, 3} && buf[1] == 0 && buf[2] == 0 && buf[3] == 0 && |buf| >= 64 then
      WireGuard
    else if |buf| > 0 && IsReset(buf[0]) then OpenVPN
    else if |buf| > 2 && IsReset(buf[2]) && buf[0] as int * 256 + buf[1] as int > 0 then OpenVPN
    else Unknown
  }

  /** The protocol setting of a rule: "auto", "socks5", "wireguard", "openvpn", or any other string. */
  datatype Setting = Auto | OnlySocks5 | OnlyWireGuard | OnlyOpenVPN | Garbage(text: string)

  predicate AllowedFor(allowed: Setting, p: Protocol) {
    match allowed
    case OnlySocks5 => p == Socks5
    case OnlyWireGuard => p == WireGuard
    case OnlyOpenVPN => p == OpenVPN
    case _ => p != Unknown
  }

  predicate ValidAllowed(s: Setting) {
    !s.Garbage?
  }

  predicate WireGuardStart(buf: seq<byte>) {
    |buf| >= 4 && buf[0] in {1, 2, 3} && buf[1] == 0 && buf[2] == 0 && buf[3] == 0
  }

  /** Bytes that arrive later cannot take back a SOCKS5 or OpenVPN verdict. */
  lemma MoreBytesKeepTheVerdict(buf: seq<byte>, more: seq<byte>)
    requires Detect(buf) == Socks5 || Detect(buf) == OpenVPN
    ensures Detect(buf + more) == Detect(buf)
  {
  }

  /** A WireGuard opening is never taken for another protocol, and is recognised exactly from 64 to 148 bytes. */
  lemma WireGuardWindow(buf: seq<byte>)
    requires WireGuardStart(buf)
    ensures Detect(buf) == if 64 <= |buf| <= 148 then WireGuard else Unknown
  {
  }

  /** So a WireGuard verdict, unlike the other two, is kept by more bytes if and only if they still fit in 148. */
  lemma WireGuardKept(buf: seq<byte>, more: seq<byte>)
    requires Detect(buf) == WireGuard
    ensures Detect(buf + more) == WireGuard <==> |buf| + |more| <= 148
  {
  }

  /** Every verdict, by what the bytes are rather than by the order of the tests. */
  lemma VerdictMeaning(buf: seq<byte>)
    ensures Detect(buf) == Socks5 <==> |buf| >= 3 && buf[0] == 5
    ensures Detect(buf) == WireGuard <==> WireGuardStart(buf) && 64 <= |buf| <= 148
    ensures Detect(buf) == OpenVPN <==>
              || (|buf| > 0 && buf[0] in {8, 56, 80})
              || (|buf| > 2 && buf[2] in {8, 56, 80} && buf[0] != 5 && !(buf[0] == 0 && buf[1] == 0))
  {
  }

}
