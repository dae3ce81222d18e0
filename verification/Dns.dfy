/** `__convert_pyaddr_to_sockaddr`: socket addresses converted through a cache keyed by the
    address alone. */
module Dns {
  import opened Wrappers
  import opened Lru

  const CACHE_SIZE := 2048      // DNS_PYADDR_TO_SOCKADDR_CACHE_SIZE
  const UNIX_PATH_MAX := 107

  datatype Family = Inet | Inet6 | Unix | OtherFamily(code: int)

  /** Exceptions of the encoders, of C integers, and of libuv. */
  datatype Failure = EncodeError | OverflowError | OSError(errno: int)

  datatype Error = TypeError | ValueError | Raised(failure: Failure)

  datatype Result<T> = Ok(value: T) | Err(error: Error)

  /** How a Python number is represented: `int` itself; other types with `__index__`, such as
      `bool`; `float` and others that only `int()` converts; `complex`, which it does not. */
  datatype Kind = Plain | Index | Float | Complex

  /** An item of an address.  A number equals every number of its value, of whatever kind, and a
      `bytearray` the `bytes` of its content. */
  datatype Item =
    | Str(s: string)
    | Buffer(b: seq<int>, mutable: bool)
    | Number(value: real, kind: Kind)
    | OtherItem(id: nat, hashable: bool)

  datatype Addr =
    | Text(s: string)
    | Bytes(b: seq<int>)
    | Tuple(items: seq<Item>)
    | OtherObject(id: nat, hashable: bool)

  /** A converted address. */
  datatype SockAddr =
    | In4(addr: seq<int>)
    | In6(addr: seq<int>, flowinfo: int, scopeId: int)
    | UnixAddr(path: seq<int>)

  datatype Attempt<T> = Works(value: T) | Fails(failure: Failure)

  /** File-system and IDNA encoding, the parsing of ports, C integers, and libuv's functions. */
  datatype Codec = Codec(
    encode: string -> Attempt<seq<int>>,
    host: string -> Attempt<seq<int>>,
    port: Item -> Attempt<int>,
    cint: int -> Attempt<int>,
    index: nat -> Option<int>,
    ip4: (seq<int>, int) -> Attempt<seq<int>>,
    ip6: (seq<int>, int) -> Attempt<seq<int>>)

  predicate HashableItem(item: Item) {
    match item
    case Buffer(_, mutable) => !mutable
    case OtherItem(_, hashable) => hashable
    case _ => true
  }

  predicate Hashable(addr: Addr) {
    match addr
    case Tuple(items) => forall i :: 0 <= i < |items| ==> HashableItem(items[i])
    case OtherObject(_, hashable) => hashable
    case _ => true
  }

  /** One representative of the items that compare equal. */
  function NormalItem(item: Item): Item {
    match item
    case Buffer(b, _) => Buffer(b, false)
    case Number(value, _) => Number(value, Plain)
    case OtherItem(id, _) => OtherItem(id, true)
    case Str(_) => item
  }

  /** One representative of the addresses that compare equal: what a dictionary tells apart. */
  function Normal(addr: Addr): Addr {
    match addr
    case Tuple(items) => Tuple(seq(|items|, i requires 0 <= i < |items| => NormalItem(items[i])))
    case OtherObject(id, _) => OtherObject(id, true)
    case _ => addr
  }

  // ---- The conversion without a cache ----

  function Lift<T>(a: Attempt<T>): Result<T> {
    match a case Works(v) => Ok(v) case Fails(f) => Err(Raised(f))
  }

  /** `int(x)`, which rounds toward zero. */
  function Truncated(x: real): (n: int)
    ensures if x >= 0.0 then n as real <= x < n as real + 1.0 else n as real - 1.0 < x <= n as real
  {
    if x >= 0.0 then x.Floor else -((-x).Floor)
  }

  function Host(codec: Codec, item: Item): Result<seq<int>> {
    match item
    case Str(s) => Lift(codec.host(s))
    case Buffer(b, _) => Ok(b)
    case _ => Err(TypeError)
  }

  /** `__port_to_int` without a protocol: a number that `int()` refuses is no known service. */
  function Port(codec: Codec, item: Item): Attempt<int> {
    if !item.Number? then codec.port(item)
    else if item.kind == Complex then Fails(OSError(0))
    else Works(Truncated(item.value))
  }

  /** A flowinfo or scope_id, assigned to a C int. */
  function Field(codec: Codec, item: Item): Result<int> {
    match item
    case Number(value, kind) =>
      if kind == Plain || kind == Index then Lift(codec.cint(Truncated(value))) else Err(TypeError)
    case OtherItem(id, _) => (match codec.index(id) case Some(n) => Lift(codec.cint(n)) case None => Err(TypeError))
    case _ => Err(TypeError)
  }

  function OptionalField(codec: Codec, items: seq<Item>, i: nat): Result<int> {
    if i < |items| then Field(codec, items[i]) else Ok(0)
  }

  function DirectInet(codec: Codec, items: seq<Item>): Result<SockAddr>
    requires |items| == 2
  {
    match Host(codec, items[0])
    case Err(e) => Err(e)
    case Ok(host) =>
      match Port(codec, items[1])
      case Fails(f) => Err(Raised(f))
      case Works(port) => match codec.ip4(host, port) case Works(a) => Ok(In4(a)) case Fails(f) => Err(Raised(f))
  }

  function DirectInet6(codec: Codec, items: seq<Item>): Result<SockAddr>
    requires 2 <= |items| <= 4
  {
    match Host(codec, items[0])
    case Err(e) => Err(e)
    case Ok(host) =>
      match Port(codec, items[1])
      case Fails(f) => Err(Raised(f))
      case Works(port) =>
        match OptionalField(codec, items, 2)
        case Err(e) => Err(e)
        case Ok(flowinfo) =>
          match OptionalField(codec, items, 3)
          case Err(e) => Err(e)
          case Ok(scopeId) =>
            match codec.ip6(host, port)
            case Works(a) => Ok(In6(a, flowinfo, scopeId))
            case Fails(f) => Err(Raised(f))
  }

  function DirectUnix(addr: Addr): Result<SockAddr> {
    if !addr.Bytes? then Err(TypeError)
    else if |addr.b| > UNIX_PATH_MAX then Err(ValueError)
    else Ok(UnixAddr(addr.b))
  }

  function Direct(codec: Codec, family: Family, addr: Addr): Result<SockAddr> {
    match family
    case Inet =>
      if !addr.Tuple? then Err(TypeError)
      else if |addr.items| != 2 then Err(ValueError)
      else DirectInet(codec, addr.items)
    case Inet6 =>
      if !addr.Tuple? then Err(TypeError)
      else if |addr.items| < 2 || |addr.items| > 4 then Err(ValueError)
      else DirectInet6(codec, addr.items)
    case Unix =>
      if addr.Text? then
        match codec.encode(addr.s)
        case Fails(f) => Err(Raised(f))
        case Works(b) => DirectUnix(Bytes(b))
      else DirectUnix(addr)
    case OtherFamily(_) => Err(ValueError)
  }

  // ---- When the cache changes nothing ----

  /** Every number is of a kind that its position takes. */
  predicate NumbersFit(family: Family, addr: Addr) {
    addr.Tuple? ==>
      && (|addr.items| > 1 && addr.items[1].Number? ==> addr.items[1].kind != Complex)
      && (family == Inet6 ==>
            forall i :: 2 <= i < |addr.items| && addr.items[i].Number? ==>
              addr.items[i].kind == Plain || addr.items[i].kind == Index)
  }

  predicate HostFits(item: Item) {
    item.Str? || item.Buffer?
  }

  predicate FieldFits(codec: Codec, items: seq<Item>, i: nat) {
    i < |items| ==>
      match items[i]
      case Number(_, kind) => kind == Plain || kind == Index
      case OtherItem(id, _) => codec.index(id).Some?
      case _ => false
  }

  /** The address has a wrong type in the first place that is found wrong. */
  predicate IllTyped(codec: Codec, family: Family, addr: Addr) {
    match family
    case Inet => !addr.Tuple? || (|addr.items| == 2 && !HostFits(addr.items[0]))
    case Inet6 =>
      || !addr.Tuple?
      || (2 <= |addr.items| <= 4
          && (|| !HostFits(addr.items[0])
              || (&& Host(codec, addr.items[0]).Ok? && Port(codec, addr.items[1]).Works?
                  && (|| !FieldFits(codec, addr.items, 2)
                      || (OptionalField(codec, addr.items, 2).Ok? && !FieldFits(codec, addr.items, 3))))))
    case Unix => !addr.Text? && !addr.Bytes?
    case OtherFamily(_) => false
  }

  /** A hashable address that converts, converts like every address that equals it and fits. */
  lemma NormalConverts(codec: Codec, family: Family, addr: Addr)
    requires Hashable(addr)
    ensures NumbersFit(family, addr) ==> Direct(codec, family, Normal(addr)) == Direct(codec, family, addr)
    ensures !NumbersFit(family, addr) ==> !Direct(codec, family, addr).Ok?
  {
    if addr.Tuple? {
      forall i | 0 <= i < |addr.items| && HashableItem(addr.items[i])
        ensures Host(codec, NormalItem(addr.items[i])) == Host(codec, addr.items[i])
      {
      }
      assert forall i :: 0 <= i < |addr.items| ==> HashableItem(addr.items[i]);
    }
  }

  /** TypeError, which the lookup of an unhashable address raises too, is what the conversion
      itself raises exactly for these addresses. */
  lemma TypeErrors(codec: Codec, family: Family, addr: Addr)
    ensures Direct(codec, family, addr) == Err(TypeError) <==> IllTyped(codec, family, addr)
  {
  }

  // ---- What a converted address holds ----

  /** Python ints. */
  function Ints(numbers: seq<int>): seq<Item> {
    seq(|numbers|, i requires 0 <= i < |numbers| => Number(numbers[i] as real, Plain))
  }

  /** The bytes of a host, if it has any: those of a bytes object, and of text what the encoder makes of it. */
  ghost predicate HasBytes(codec: Codec, host: Item, b: seq<int>) {
    (host.Buffer? && host.b == b) || (host.Str? && codec.host(host.s) == Works(b))
  }

  lemma IntsAreKept(codec: Codec, n: int)
    ensures Port(codec, Number(n as real, Plain)) == Works(n)
    ensures Field(codec, Number(n as real, Plain)) == Lift(codec.cint(n))
  {
    assert Truncated(n as real) == n;
  }

  /** An IPv4 address of a host and a port is exactly what libuv makes of the two. */
  lemma InetHolds(codec: Codec, host: Item, b: seq<int>, port: int)
    requires HasBytes(codec, host, b)
    ensures Direct(codec, Inet, Tuple([host] + Ints([port]))) ==
            match codec.ip4(b, port) case Works(a) => Ok(In4(a)) case Fails(f) => Err(Raised(f))
  {
    hide Port, Field;
    IntsAreKept(codec, port);
    assert [host] + Ints([port]) == [host, Number(port as real, Plain)];
  }

  /** An IPv6 address of a host and ints is what libuv makes of host and port, with the third item as its
      flow info and the fourth as its scope, which are 0 when they are not given; each must fit a C int. */
  lemma Inet6Holds(codec: Codec, host: Item, b: seq<int>, numbers: seq<int>)
    requires HasBytes(codec, host, b) && 1 <= |numbers| <= 3
    ensures
      var r := Direct(codec, Inet6, Tuple([host] + Ints(numbers)));
      var flowinfo := if |numbers| > 1 then codec.cint(numbers[1]) else Works(0);
      var scopeId := if |numbers| > 2 then codec.cint(numbers[2]) else Works(0);
      var address := codec.ip6(b, numbers[0]);
      && (r.Ok? <==> address.Works? && flowinfo.Works? && scopeId.Works?)
      && (r.Ok? ==> r.value == In6(address.value, flowinfo.value, scopeId.value))
      && (r.Err? ==> r.error == Raised(if flowinfo.Fails? then flowinfo.failure
                                       else if scopeId.Fails? then scopeId.failure else address.failure))
  {
    hide Port, Field;
    var items := [host] + Ints(numbers);
    forall i | 0 <= i < |numbers|
      ensures Port(codec, items[i + 1]) == Works(numbers[i])
      ensures Field(codec, items[i + 1]) == Lift(codec.cint(numbers[i]))
    {
      IntsAreKept(codec, numbers[i]);
    }
    assert items[1] == items[0 + 1];
    assert |numbers| > 1 ==> items[2] == items[1 + 1];
    assert |numbers| > 2 ==> items[3] == items[2 + 1];
  }

  /** A Unix address is the bytes given, or those that text is encoded as, and is refused exactly when
      they are more than 107. */
  lemma UnixHolds(codec: Codec, addr: Addr, b: seq<int>)
    requires addr == Bytes(b) || (addr.Text? && codec.encode(addr.s) == Works(b))
    ensures Direct(codec, Unix, addr) == if |b| <= 107 then Ok(UnixAddr(b)) else Err(ValueError)
  {
  }

  /** ValueError is raised exactly for another family, a tuple of another length, and a long path. */
  lemma ValueErrors(codec: Codec, family: Family, addr: Addr)
    ensures Direct(codec, family, addr) == Err(ValueError) <==>
            match family
            case Inet => addr.Tuple? && |addr.items| != 2
            case Inet6 => addr.Tuple? && !(2 <= |addr.items| <= 4)
            case Unix =>
              || (addr.Bytes? && |addr.b| > 107)
              || (addr.Text? && codec.encode(addr.s).Works? && |codec.encode(addr.s).value| > 107)
            case OtherFamily(_) => true
  {
  }

  // ---- The cached conversion ----

  datatype SockAddrHolder = SockAddrHolder(family: Family, addr: SockAddr)

  type Cache = LruCache<Addr, SockAddrHolder>

  /** Every holder is what a direct conversion of its key gives for its family. */
  ghost predicate Sound(codec: Codec, dict: map<Addr, SockAddrHolder>) {
    forall k :: k in dict ==> Direct(codec, dict[k].family, k) == Ok(dict[k].addr)
  }

  /** The lookup finds an address of this family that equals `addr`. */
  predicate Hit(dict: map<Addr, SockAddrHolder>, family: Family, addr: Addr) {
    Hashable(addr) && Normal(addr) in dict && dict[Normal(addr)].family == family
  }

  method ConvertPyAddrToSockAddr(sockaddrs: Cache, codec: Codec, family: Family, pyaddr: Addr)
    returns (res: Result<SockAddr>)
    requires sockaddrs.Valid() && sockaddrs.maxsize > 0 && Sound(codec, sockaddrs.dict)
    modifies sockaddrs
    ensures sockaddrs.Valid() && Sound(codec, sockaddrs.dict)
    ensures !Hashable(pyaddr) ==> res == Err(TypeError)
    ensures old(Hit(sockaddrs.dict, family, pyaddr)) ==> res == Direct(codec, family, Normal(pyaddr)) && res.Ok?
    ensures Hashable(pyaddr) && !old(Hit(sockaddrs.dict, family, pyaddr)) ==> res == Direct(codec, family, pyaddr)
    ensures res == Direct(codec, family, pyaddr) <==>
              if !Hashable(pyaddr) then IllTyped(codec, family, pyaddr)
              else !old(Hit(sockaddrs.dict, family, pyaddr)) || NumbersFit(family, pyaddr)
    ensures Hashable(pyaddr) && pyaddr.Tuple? && res.Ok? ==> Hit(sockaddrs.dict, family, pyaddr)
  {
    hide Host, Port, OptionalField, DirectInet, DirectInet6, IllTyped, NumbersFit, LruCache.Valid;
    TypeErrors(codec, family, pyaddr);
    if !Hashable(pyaddr) {
      return Err(TypeError);
    }
    NormalConverts(codec, family, pyaddr);
    var cached := sockaddrs.Get(Normal(pyaddr));
    if cached.Some? && cached.value.family == family {
      return Ok(cached.value.addr);
    }

    var addr := pyaddr;
    match family {
      case Inet =>
        if !addr.Tuple? {
          return Err(TypeError);
        }
        if |addr.items| != 2 {
          return Err(ValueError);
        }
        res := DirectInet(codec, addr.items);
      case Inet6 =>
        if !addr.Tuple? {
          return Err(TypeError);
        }
        if |addr.items| < 2 || |addr.items| > 4 {
          return Err(ValueError);
        }
        res := DirectInet6(codec, addr.items);
      case Unix =>
        if addr.Text? {
          var encoded := codec.encode(addr.s);
          if encoded.Fails? {
            return Err(Raised(encoded.failure));
          }
          addr := Bytes(encoded.value);
        } else if !addr.Bytes? {
          return Err(TypeError);
        }
        if |addr.b| > UNIX_PATH_MAX {
          return Err(ValueError);
        }
        res := Ok(UnixAddr(addr.b));
      case OtherFamily(_) =>
        return Err(ValueError);
    }
    if res.Err? {
      return;
    }
    sockaddrs.SetItem(Normal(addr), SockAddrHolder(family, res.value));
  }

  /** Any sequence of lookups of mixed families gives, for every hashable address whose numbers
      fit, what direct conversion would. */
  method AnyLookups(codec: Codec, lookups: seq<(Family, Addr)>) returns (results: seq<Result<SockAddr>>)
    ensures |results| == |lookups|
    ensures forall i :: 0 <= i < |lookups| ==> Answered(codec, lookups[i].0, lookups[i].1, results[i])
  {
    var sockaddrs := new LruCache<Addr, SockAddrHolder>(CACHE_SIZE);
    results := [];
    for i := 0 to |lookups|
      invariant sockaddrs.Valid() && sockaddrs.maxsize == CACHE_SIZE && fresh(sockaddrs)
      invariant Sound(codec, sockaddrs.dict)
      invariant |results| == i
      invariant forall j :: 0 <= j < i ==> Answered(codec, lookups[j].0, lookups[j].1, results[j])
    {
      var res := ConvertPyAddrToSockAddr(sockaddrs, codec, lookups[i].0, lookups[i].1);
      results := results + [res];
    }
  }

  /** The answer is that of a direct conversion, if the address is hashable and its numbers fit;
      with other numbers it may be that of an address that equals it. */
  predicate Answered(codec: Codec, family: Family, addr: Addr, res: Result<SockAddr>) {
    if !Hashable(addr) then res == Err(TypeError)
    else if NumbersFit(family, addr) then res == Direct(codec, family, addr)
    else res == Direct(codec, family, addr) || res == Direct(codec, family, Normal(addr))
  }

  /** Two addresses that compare equal: the second is accepted after the first, and only then. */
  method EqualAddressesDiffer(codec: Codec, host: string, value: real)
    returns (first: Result<SockAddr>, second: Result<SockAddr>)
    requires Direct(codec, Inet, Tuple([Str(host), Number(value, Plain)])).Ok?
    ensures second == first && first.Ok?
    ensures Direct(codec, Inet, Tuple([Str(host), Number(value, Complex)])) == Err(Raised(OSError(0)))
  {
    var sockaddrs := new LruCache<Addr, SockAddrHolder>(CACHE_SIZE);
    var plain, other := Tuple([Str(host), Number(value, Plain)]), Tuple([Str(host), Number(value, Complex)]);
    assert Normal(plain) == plain && Normal(other) == plain;
    first := ConvertPyAddrToSockAddr(sockaddrs, codec, Inet, plain);
    second := ConvertPyAddrToSockAddr(sockaddrs, codec, Inet, other);
  }

  /** A pair whose host is a bytearray converts directly but not through the cache. */
  lemma UnhashableHostIsRefused(codec: Codec, b: seq<int>, value: real, a: seq<int>)
    requires codec.ip4(b, Truncated(value)) == Works(a)
    ensures
      var addr := Tuple([Buffer(b, true), Number(value, Plain)]);
      Direct(codec, Inet, addr) == Ok(In4(a)) && !Hashable(addr) && !IllTyped(codec, Inet, addr)
  {
  }
}
