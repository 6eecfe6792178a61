/** Address blocks and the ingress policy.  Addresses are the words that their octets spell. */
module Cidr {
  import opened Wrappers
  import Bits
  import Decimal
  import Strings

  datatype IpAddr = V4(word: nat) | V6(word: nat)

  function Width(address: IpAddr): nat {
    if address.V4? then 32 else 128
  }

  predicate IsAddress(address: IpAddr) {
    address.word < Bits.Pow2(Width(address))
  }

  /** The weight of the first octet of an IPv4 address. */
  const OCTET: nat := 0x100_0000

  /** 127.0.0.0/8 or ::1 */
  predicate IsLoopback(address: IpAddr) {
    match address
    case V4(word) => word / OCTET == 127
    case V6(word) => word == 1
  }

  datatype CidrBlock = CidrBlock(network: IpAddr, prefix: nat)

  predicate IsBlock(block: CidrBlock) {
    IsAddress(block.network) && block.prefix <= Width(block.network)
  }

  datatype IngressPolicy = Localhost | Any | Addresses(blocks: seq<CidrBlock>)

  predicate IsPolicy(policy: IngressPolicy) {
    policy.Addresses? ==> forall k :: 0 <= k < |policy.blocks| ==> IsBlock(policy.blocks[k])
  }

  // ---------------------------------------------------------------- parsing

  /** `CidrBlock::parse`, for a parser of single addresses. */
  function Parse(text: string, address: string -> Option<IpAddr>): Option<CidrBlock> {
    var (head, prefix) := match Strings.SplitOnce(text, '/')
                          case Some((before, after)) => (before, Some(after))
                          case None => (text, None);
    match address(head)
    case None => None
    case Some(network) =>
      var length := match prefix
                    case None => Some(Width(network))
                    case Some(digits) => ParsePrefix(digits);
      if length.None? || length.value > Width(network) then None else Some(CidrBlock(network, length.value))
  }

  function ParsePrefix(digits: string): Option<int> {
    if digits != "" && Decimal.AllDigits(digits) then Decimal.ParseInt(digits, 0, 255) else None
  }

  function Display(block: CidrBlock, show: IpAddr -> string): string {
    show(block.network) + "/" + Decimal.Print(block.prefix)
  }

  /** Whatever is parsed has a prefix that fits its addresses. */
  lemma ParsedIsBlock(text: string, address: string -> Option<IpAddr>)
    requires forall part :: address(part).Some? ==> IsAddress(address(part).value)
    ensures Parse(text, address).Some? ==> IsBlock(Parse(text, address).value)
  {
  }

  /** What a block displays as parses back to it. */
  lemma DisplayParses(block: CidrBlock, address: string -> Option<IpAddr>, show: IpAddr -> string)
    requires IsBlock(block)
    requires address(show(block.network)) == Some(block.network) && '/' !in show(block.network)
    ensures Parse(Display(block, show), address) == Some(block)
  {
    Strings.SplitOnceAt(show(block.network), '/', Decimal.Print(block.prefix));
    Decimal.PrintParses(block.prefix, 0, 255);
  }

  // ---------------------------------------------------------------- membership

  function Contains(block: CidrBlock, address: IpAddr): bool
    requires IsBlock(block)
  {
    if block.network.V4? == address.V4? then
      var mask := Bits.HighMask(Width(address), Width(address) - block.prefix);
      Bits.And(block.network.word, mask) == Bits.And(address.word, mask)
    else false
  }

  function Size(block: CidrBlock): nat
    requires IsBlock(block)
  {
    Bits.Pow2(Width(block.network) - block.prefix)
  }

  function First(block: CidrBlock): nat
    requires IsBlock(block)
  {
    Bits.Clear(block.network.word, Width(block.network) - block.prefix)
  }

  /** Equal above the low bits is the same as being in the block. */
  lemma ContainsIsAgreement(block: CidrBlock, address: IpAddr)
    requires IsBlock(block) && IsAddress(address) && block.network.V4? == address.V4?
    ensures var shift := Width(address) - block.prefix;
            Contains(block, address) <==> Bits.Clear(block.network.word, shift) == Bits.Clear(address.word, shift)
  {
    Bits.MaskClears(block.network.word, Width(address), Width(address) - block.prefix);
    Bits.MaskClears(address.word, Width(address), Width(address) - block.prefix);
  }

  /** A block holds exactly the addresses of an interval of its size. */
  lemma ContainsIsInterval(block: CidrBlock, address: IpAddr)
    requires IsBlock(block) && IsAddress(address)
    ensures Contains(block, address) <==>
              block.network.V4? == address.V4? && First(block) <= address.word < First(block) + Size(block)
  {
    if block.network.V4? == address.V4? {
      ContainsIsAgreement(block, address);
      Bits.ClearInterval(block.network.word, address.word, Width(address) - block.prefix);
    }
  }

  /** The interval is aligned and holds the network itself, and for prefix 0 it is the whole family. */
  lemma IntervalIsAligned(block: CidrBlock) returns (k: nat)
    requires IsBlock(block)
    ensures First(block) == k * Size(block)
    ensures First(block) <= block.network.word < First(block) + Size(block)
    ensures block.prefix == 0 ==> First(block) == 0 && Size(block) == Bits.Pow2(Width(block.network))
  {
    k := Bits.ClearAligned(block.network.word, Width(block.network) - block.prefix);
    if block.prefix == 0 {
      Bits.ClearAll(block.network.word, Width(block.network));
    }
  }

  // ---------------------------------------------------------------- the policy

  function IsLoopbackOnly(block: CidrBlock): bool {
    IsLoopback(block.network) && block.prefix >= if block.network.V4? then 8 else 128
  }

  function AllowsPeer(policy: IngressPolicy, peer: IpAddr): bool
    requires IsPolicy(policy)
  {
    match policy
    case Localhost => IsLoopback(peer)
    case Any => true
    case Addresses(blocks) => exists k :: 0 <= k < |blocks| && Contains(blocks[k], peer)
  }

  function AdmitsNonLoopback(policy: IngressPolicy): bool {
    match policy
    case Localhost => false
    case Any => true
    case Addresses(blocks) => exists k :: 0 <= k < |blocks| && !IsLoopbackOnly(blocks[k])
  }

  lemma FirstOctet(x: nat, y: nat)
    ensures Bits.Clear(x, 24) == Bits.Clear(y, 24) <==> x / OCTET == y / OCTET
  {
    Bits.Pow2Of24();
    Bits.ClearInterval(x, y, 24);
    var k := Bits.ClearAligned(x, 24);
    assert Bits.Clear(x, 24) == k * OCTET;
    assert x / OCTET == k;
  }

  /** A loopback block holds loopback addresses only. */
  lemma LoopbackOnlySound(block: CidrBlock, address: IpAddr)
    requires IsBlock(block) && IsAddress(address) && IsLoopbackOnly(block) && Contains(block, address)
    ensures IsLoopback(address)
  {
    ContainsIsAgreement(block, address);
    if address.V4? {
      Bits.ClearMore(block.network.word, address.word, 32 - block.prefix, 24);
      FirstOctet(block.network.word, address.word);
    }
  }

  /** An IPv4 loopback address and its neighbour 126.x.y.z differ in bit 24 alone. */
  lemma Neighbour(x: nat)
    requires x / OCTET == 127
    ensures x >= OCTET && Bits.Clear(x, 25) == Bits.Clear(x - OCTET, 25) && (x - OCTET) / OCTET == 126
  {
    Bits.Pow2Of24();
    Bits.ClearInterval(x, x - OCTET, 25);
    var k := Bits.ClearAligned(x, 25);
    assert Bits.Pow2(25) == 2 * OCTET;
    assert Bits.Clear(x, 25) == k * (2 * OCTET);
  }

  /** Every other block holds an address that is not loopback. */
  lemma LoopbackOnlyComplete(block: CidrBlock) returns (address: IpAddr)
    requires IsBlock(block) && !IsLoopbackOnly(block)
    ensures IsAddress(address) && Contains(block, address) && !IsLoopback(address)
  {
    var network := block.network;
    if !IsLoopback(network) {
      address := network;
    } else if network.V4? {
      Neighbour(network.word);
      address := V4(network.word - OCTET);
      Bits.ClearMore(network.word, address.word, 25, 32 - block.prefix);
    } else {
      address := V6(0);
      Bits.ClearMore(network.word, 0, 1, 128 - block.prefix);
    }
    ContainsIsAgreement(block, address);
  }

  /** `admits_non_loopback` is exact: some address that is not loopback is allowed. */
  lemma AdmitsNonLoopbackExact(policy: IngressPolicy)
    requires IsPolicy(policy)
    ensures AdmitsNonLoopback(policy) <==>
            exists peer :: IsAddress(peer) && AllowsPeer(policy, peer) && !IsLoopback(peer)
  {
    match policy {
      case Localhost =>
      case Any =>
        AllAddresses();
      case Addresses(blocks) =>
        if AdmitsNonLoopback(policy) {
          var k :| 0 <= k < |blocks| && !IsLoopbackOnly(blocks[k]);
          var peer := LoopbackOnlyComplete(blocks[k]);
          assert AllowsPeer(policy, peer);
        } else {
          BlocksLoopbackOnly(blocks);
        }
    }
  }

  lemma AllAddresses()
    ensures IsAddress(V6(0)) && !IsLoopback(V6(0))
  {
  }

  lemma BlocksLoopbackOnly(blocks: seq<CidrBlock>)
    requires IsPolicy(Addresses(blocks)) && !AdmitsNonLoopback(Addresses(blocks))
    ensures forall peer :: IsAddress(peer) && AllowsPeer(Addresses(blocks), peer) ==> IsLoopback(peer)
  {
    forall peer | IsAddress(peer) && AllowsPeer(Addresses(blocks), peer) ensures IsLoopback(peer) {
      var k :| 0 <= k < |blocks| && Contains(blocks[k], peer);
      LoopbackOnlySound(blocks[k], peer);
    }
  }

  // ---------------------------------------------------------------- what each policy lets in

  /** Exactly the peers of each policy, as intervals of words. */
  lemma AllowsPeerExactly(policy: IngressPolicy, peer: IpAddr)
    requires IsPolicy(policy) && IsAddress(peer)
    ensures AllowsPeer(policy, peer) <==>
            match policy
            case Localhost => if peer.V4? then 0x7F00_0000 <= peer.word <= 0x7FFF_FFFF else peer.word == 1
            case Any => true
            case Addresses(blocks) =>
              exists k :: 0 <= k < |blocks| && blocks[k].network.V4? == peer.V4? &&
                          First(blocks[k]) <= peer.word < First(blocks[k]) + Size(blocks[k])
  {
    if policy.Addresses? {
      var blocks := policy.blocks;
      forall k | 0 <= k < |blocks|
        ensures Contains(blocks[k], peer) <==>
                  blocks[k].network.V4? == peer.V4? &&
                  First(blocks[k]) <= peer.word < First(blocks[k]) + Size(blocks[k])
      {
        ContainsIsInterval(blocks[k], peer);
      }
    }
  }

  // ---------------------------------------------------------------- exactly which texts parse

  /** A text without a slash is one address, and the block holds that address alone. */
  lemma BareAddress(text: string, address: string -> Option<IpAddr>, other: IpAddr)
    requires '/' !in text && IsAddress(other)
    requires address(text).Some? ==> IsAddress(address(text).value)
    ensures Parse(text, address).Some? <==> address(text).Some?
    ensures Parse(text, address).Some? ==>
              IsBlock(Parse(text, address).value) && (Contains(Parse(text, address).value, other) <==>
                                                      address(text) == Some(other))
  {
    assert Strings.SplitOnce(text, '/').None?;
    if address(text).Some? {
      var block := Parse(text, address).value;
      ContainsIsInterval(block, other);
      OneAddress(block);
    }
  }

  lemma OneAddress(block: CidrBlock)
    requires IsBlock(block) && block.prefix == Width(block.network)
    ensures Size(block) == 1 && First(block) == block.network.word
  {
    var k := IntervalIsAligned(block);
  }

  /** A text with a slash is a block exactly when an address and a decimal prefix that fits it surround the slash. */
  lemma SlashedAddress(head: string, tail: string, address: string -> Option<IpAddr>)
    requires '/' !in head
    ensures var block := Parse(head + ['/'] + tail, address);
            && (block.Some? <==>
                  && address(head).Some?
                  && tail != "" && Decimal.AllDigits(tail)
                  && Decimal.Value(tail) <= Width(address(head).value))
            && (block.Some? ==> block == Some(CidrBlock(address(head).value, Decimal.Value(tail))))
  {
    Strings.SplitOnceAt(head, '/', tail);
  }
}
