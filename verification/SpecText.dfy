/** The tunnel and expose specs of `src/specs.rs`, printed for the environment by `src/main.rs` and
    parsed back on the next start. The text forms of IP addresses and peer ids belong to other
    libraries: they are a parameter, constrained only by the laws below. */
module SpecText {
  import opened Types
  import opened Text

  datatype Result<T, E> = Ok(value: T) | Err(error: E)

  datatype Codec = Codec(printV4: nat -> string, parseV4: string -> Option<nat>,
                         printV6: nat -> string, parseV6: string -> Option<nat>,
                         printPeer: PeerId -> string, parsePeer: string -> Option<PeerId>)

  predicate V4Char(c: char) { IsDigit(c) || c == '.' }

  predicate V6Char(c: char) { V4Char(c) || c == ':' || 'a' <= c <= 'f' || 'A' <= c <= 'F' }

  /** What the text forms are relied on for: they parse back, an IPv4 literal is made of digits and
      dots, an IPv6 literal of hexadecimal digits, dots and at least one colon, and a peer id has
      none of the separators. */
  ghost predicate Lawful(k: Codec) {
    && (forall n: nat :: k.parseV4(k.printV4(n)) == Some(n))
    && (forall n: nat :: k.parseV6(k.printV6(n)) == Some(n))
    && (forall p :: k.parsePeer(k.printPeer(p)) == Some(p))
    && (forall s :: k.parseV4(s).Some? ==> s != "" && forall c | c in s :: V4Char(c))
    && (forall s :: k.parseV6(s).Some? ==> ':' in s && forall c | c in s :: V6Char(c))
    && (forall p, c | c in k.printPeer(p) :: c != ':' && c != '@' && c != ',')
  }

  function Number(s: string): (n: Option<nat>)
    ensures n.Some? ==> s == Decimal(n.value) && forall c | c in s :: IsDigit(c)
    ensures forall m: nat :: s == Decimal(m) ==> n == Some(m)
  {
    if s != "" && AllDigits(s) && Decimal(Value(s)) == s then Some(Value(s)) else None
  }

  function ColonNumber(s: string): (n: Option<nat>)
    ensures n.Some? ==> ':' in s && forall c | c in s :: V6Char(c)
    ensures forall m: nat :: s == ":" + Decimal(m) ==> n == Some(m)
  {
    if s != "" && s[0] == ':' then
      assert s == [':'] + s[1..];
      assert forall m: nat :: s == ":" + Decimal(m) ==> s[1..] == Decimal(m);
      Number(s[1..])
    else None
  }

  /** The laws contradict nothing: plain decimal numbers satisfy them. */
  lemma LawsHold()
    ensures exists k: Codec :: Lawful(k)
  {
    hide Decimal, ColonNumber, Number;
    var k := Codec((n: nat) => Decimal(n), s => Number(s), (n: nat) => ":" + Decimal(n), s => ColonNumber(s),
                   (p: PeerId) => Decimal(p as nat),
                   s => if Number(s).Some? then Some(Number(s).value as PeerId) else None);
    forall n: nat ensures Number(Decimal(n)) == Some(n) && ColonNumber(":" + Decimal(n)) == Some(n) {
      assert ":" + Decimal(n) == ":" + Decimal(n);
    }
    forall p: PeerId, c | c in k.printPeer(p) ensures IsDigit(c) {
      assert AllDigits(Decimal(p as nat));
    }
    assert Lawful(k);
  }

  // ----- hosts and addresses -----

  datatype AddrError = MissingPort | EmptyHost | InvalidPort

  function PrintHost(k: Codec, h: HostAddr): string {
    match h
    case V4(n) => k.printV4(n)
    case V6(n) => k.printV6(n)
    case Domain(name) => name
  }

  function ParseHost(k: Codec, s: string): Option<HostAddr> {
    if s == "" then None
    else if k.parseV4(s).Some? then Some(V4(k.parseV4(s).value))
    else if k.parseV6(s).Some? then Some(V6(k.parseV6(s).value))
    else Some(Domain(s))
  }

  function PrintAddr(k: Codec, a: ServiceAddr): string {
    if a.host.V6? then "[" + PrintHost(k, a.host) + "]:" + Decimal(a.port as nat)
    else PrintHost(k, a.host) + ":" + Decimal(a.port as nat)
  }

  function SplitAddr(s: string): Option<(string, string)> {
    if s != "" && s[0] == '[' then SplitBracket(s[1..]) else RSplitOnce(s, ':')
  }

  function ParseAddr(k: Codec, s: string): Result<ServiceAddr, AddrError> {
    match SplitAddr(s)
    case None => Err(MissingPort)
    case Some((host, port)) =>
      if host == "" then Err(EmptyHost)
      else if ParsePort(port).None? then Err(InvalidPort)
      else match ParseHost(k, host)
        case None => Err(EmptyHost)
        case Some(h) => Ok(ServiceAddr(h, ParsePort(port).value))
  }

  /** Hosts whose printed form is read as the same host. */
  predicate HostOk(k: Codec, h: HostAddr) {
    h.Domain? ==> h.name != "" && h.name[0] != '[' && k.parseV4(h.name).None? && k.parseV6(h.name).None?
  }

  lemma HostComesBack(k: Codec, h: HostAddr)
    requires Lawful(k)
    ensures PrintHost(k, h) != "" ==> (ParseHost(k, PrintHost(k, h)) == Some(h)
                                       <==> (h.Domain? ==> k.parseV4(h.name).None? && k.parseV6(h.name).None?))
    ensures !h.Domain? ==> PrintHost(k, h) != "" && forall c | c in PrintHost(k, h) :: V6Char(c)
  {
    match h
    case V4(n) => assert k.parseV4(k.printV4(n)) == Some(n);
    case V6(n) =>
      var s := k.printV6(n);
      assert k.parseV6(s) == Some(n);
      assert !V4Char(':');
    case Domain(name) =>
  }

  lemma DecimalHasNoColon(n: nat)
    ensures ':' !in Decimal(n) && '@' !in Decimal(n) && ',' !in Decimal(n)
  {
    var s := Decimal(n);
    assert forall i | 0 <= i < |s| :: IsDigit(s[i]);
  }

  lemma BracketFollows(s: string, host: string)
    ensures SplitBracket(s).Some? && SplitBracket(s).value.0 == host ==> |s| > |host| && s[|host|] == ']'
  {
  }

  /** How the printed form is cut: at the separator the printer wrote, unless a domain starts with a bracket. */
  lemma AddrCut(k: Codec, a: ServiceAddr)
    requires Lawful(k)
    ensures var host, digits := PrintHost(k, a.host), Decimal(a.port as nat);
            if a.host.Domain? && host != "" && host[0] == '['
            then SplitAddr(PrintAddr(k, a)).Some? ==> SplitAddr(PrintAddr(k, a)).value.0 != host
            else SplitAddr(PrintAddr(k, a)) == Some((host, digits))
  {
    hide Decimal, SplitBracket, RSplitOnce, Lawful;
    var host, digits := PrintHost(k, a.host), Decimal(a.port as nat);
    var s := PrintAddr(k, a);
    HostComesBack(k, a.host);
    DecimalHasNoColon(a.port as nat);
    assert !V6Char('[') && !V6Char(']');
    if a.host.V6? {
      SplitBracketUndoes(host, digits);
      assert s[1..] == host + "]:" + digits;
    } else {
      assert s == host + [':'] + digits;
      if host != "" && host[0] == '[' {
        assert s[0] == '[' && s[1..][|host|] == digits[0] && IsDigit(digits[0]);
        BracketFollows(s[1..], host);
      } else {
        assert s[0] == if host == "" then ':' else host[0];
        RSplitOnceUndoes(host, ':', digits);
      }
    }
  }

  /** An address is read back from its printed form exactly when its host is not a domain that is
      empty, starts with a bracket or is itself an IP literal. */
  lemma AddrComesBack(k: Codec, a: ServiceAddr)
    requires Lawful(k)
    ensures ParseAddr(k, PrintAddr(k, a)) == Ok(a) <==> HostOk(k, a.host)
  {
    hide Decimal, SplitAddr, PrintAddr, ParsePort;
    HostComesBack(k, a.host);
    PortComesBack(a.port);
    AddrCut(k, a);
  }

  /** What parses is read back once printed, except a domain that starts with a bracket. */
  lemma ParsedComesBack(k: Codec, s: string)
    requires Lawful(k) && ParseAddr(k, s).Ok?
    ensures var a := ParseAddr(k, s).value;
            ParseAddr(k, PrintAddr(k, a)) == Ok(a) <==> !(a.host.Domain? && a.host.name[..1] == "[")
  {
    hide PrintAddr, ParseAddr, Lawful;
    AddrComesBack(k, ParseAddr(k, s).value);
    ParsedHost(k, s);
  }

  /** A host that was parsed as a domain is neither empty nor an IP literal. */
  lemma ParsedHost(k: Codec, s: string)
    requires ParseAddr(k, s).Ok?
    ensures var h := ParseAddr(k, s).value.host;
            h.Domain? ==> h.name != "" && k.parseV4(h.name).None? && k.parseV6(h.name).None?
  {
    hide SplitAddr, ParsePort;
  }

  /** Where an address is cut: behind the first `]:` if it starts with a bracket, else at the last colon. */
  ghost predicate CutAt(s: string, host: string, port: string) {
    if s[..if s == "" then 0 else 1] == "["
    then s == "[" + host + "]:" + port && SplitBracket(host + "]").None?
    else s == host + ":" + port && ':' !in port
  }

  lemma {:induction false} FirstBracket(s: string)
    ensures SplitBracket(s).Some? ==> SplitBracket(SplitBracket(s).value.0 + "]").None?
  {
    if |s| >= 2 && SplitBracket(s).Some? {
      if s[0] == ']' && s[1] == ':' {
        assert "" + "]" == "]";
      } else {
        FirstBracket(s[1..]);
        var (a, b) := SplitBracket(s[1..]).value;
        var h := [s[0]] + a + "]";
        assert h[1..] == a + "]" && h[0] == s[0];
        assert s[1..] == a + "]:" + b;
        assert h[1] == s[1];
      }
    }
  }

  /** The three ways an address is refused, and that everything else is accepted. */
  lemma AddrErrors(k: Codec, s: string)
    ensures var r := ParseAddr(k, s);
            match SplitAddr(s)
            case None => r == Err(MissingPort)
            case Some((host, port)) =>
              && CutAt(s, host, port)
              && (r == Err(EmptyHost) <==> host == "")
              && (r == Err(InvalidPort) <==> host != "" && forall p :: !WritesPort(port, p))
              && (r.Ok? <==> host != "" && exists p :: WritesPort(port, p))
              && (r.Ok? ==> WritesPort(port, r.value.port) && ParseHost(k, host) == Some(r.value.host))
  {
    hide WritesPort, RSplitOnce, SplitBracket;
    if SplitAddr(s).Some? {
      var (host, port) := SplitAddr(s).value;
      forall p ensures ParsePort(port) == Some(p) <==> WritesPort(port, p) { PortTexts(port, p); }
      if s != "" && s[0] == '[' {
        FirstBracket(s[1..]);
        assert s == "[" + s[1..];
      }
    }
  }

  // ----- expose specs: name=addr -----

  datatype Exposed = Exposed(name: string, addr: ServiceAddr)

  datatype ExposeError = MissingSeparator | EmptyName | InvalidAddr(cause: AddrError)

  function PrintExposed(k: Codec, e: Exposed): string { e.name + "=" + PrintAddr(k, e.addr) }

  function ParseExposed(k: Codec, s: string): Result<Exposed, ExposeError> {
    match SplitOnce(s, '=')
    case None => Err(MissingSeparator)
    case Some((name, addr)) =>
      if name == "" then Err(EmptyName)
      else match ParseAddr(k, addr)
        case Err(e) => Err(InvalidAddr(e))
        case Ok(a) => Ok(Exposed(name, a))
  }

  lemma ExposedComesBack(k: Codec, e: Exposed)
    requires Lawful(k)
    ensures ParseExposed(k, PrintExposed(k, e)) == Ok(e) <==> e.name != "" && '=' !in e.name && HostOk(k, e.addr.host)
  {
    SplitOnceUndoes(e.name, '=', PrintAddr(k, e.addr));
    AddrComesBack(k, e.addr);
  }

  /** An expose spec is cut at its first equals sign; it is refused without one, with nothing before it, or
      for its address, and accepted otherwise. */
  lemma ExposedErrors(k: Codec, s: string, name: string, addr: string)
    ensures ParseExposed(k, s) == Err(MissingSeparator) <==> '=' !in s
    ensures s == name + "=" + addr && '=' !in name ==>
              ParseExposed(k, s) == if name == "" then Err(EmptyName)
                                    else if ParseAddr(k, addr).Err? then Err(InvalidAddr(ParseAddr(k, addr).error))
                                    else Ok(Exposed(name, ParseAddr(k, addr).value))
  {
    hide ParseAddr, SplitOnce;
    SplitOnceUndoes(name, '=', addr);
  }

  // ----- tunnels by name: name@addr -----

  datatype ByName = ByName(service: string, bind: ServiceAddr)

  function PrintByName(k: Codec, t: ByName): string { t.service + "@" + PrintAddr(k, t.bind) }

  function ParseByName(k: Codec, s: string): Result<ByName, ExposeError> {
    match RSplitOnce(s, '@')
    case None => Err(MissingSeparator)
    case Some((name, addr)) =>
      if name == "" then Err(EmptyName)
      else match ParseAddr(k, addr)
        case Err(e) => Err(InvalidAddr(e))
        case Ok(a) => Ok(ByName(name, a))
  }

  /** Whether `c`, a separator that no IP literal holds, is in the text of the host. */
  predicate InDomain(h: HostAddr, c: char) { h.Domain? && c in h.name }

  lemma AddrHolds(k: Codec, a: ServiceAddr, c: char)
    requires Lawful(k) && (c == '@' || c == ',')
    ensures c in PrintAddr(k, a) <==> InDomain(a.host, c)
  {
    HostComesBack(k, a.host);
    DecimalHasNoColon(a.port as nat);
    assert !V6Char('@') && !V6Char(',');
  }

  lemma ByNameComesBack(k: Codec, t: ByName)
    requires Lawful(k)
    ensures ParseByName(k, PrintByName(k, t)) == Ok(t)
            <==> t.service != "" && !InDomain(t.bind.host, '@') && HostOk(k, t.bind.host)
  {
    RSplitOnceUndoes(t.service, '@', PrintAddr(k, t.bind));
    AddrHolds(k, t.bind, '@');
    AddrComesBack(k, t.bind);
  }

  /** A by-name spec is cut at its last at sign; it is refused without one, with nothing before it, or for
      its address, and accepted otherwise. */
  lemma ByNameErrors(k: Codec, s: string, name: string, addr: string)
    ensures ParseByName(k, s) == Err(MissingSeparator) <==> '@' !in s
    ensures s == name + "@" + addr && '@' !in addr ==>
              ParseByName(k, s) == if name == "" then Err(EmptyName)
                                   else if ParseAddr(k, addr).Err? then Err(InvalidAddr(ParseAddr(k, addr).error))
                                   else Ok(ByName(name, ParseAddr(k, addr).value))
  {
    hide ParseAddr, RSplitOnce;
    RSplitOnceUndoes(name, '@', addr);
  }

  // ----- tunnels to a peer: peer:name@addr -----

  datatype ToPeer = ToPeer(remote: PeerId, service: string, bind: ServiceAddr)

  datatype ToPeerError = MissingBindSeparator | MissingPeerSeparator | InvalidPeerId | InvalidBindAddr(cause: AddrError)

  function PrintToPeer(k: Codec, t: ToPeer): string {
    k.printPeer(t.remote) + ":" + t.service + "@" + PrintAddr(k, t.bind)
  }

  function ParseToPeer(k: Codec, s: string): Result<ToPeer, ToPeerError> {
    match RSplitOnce(s, '@')
    case None => Err(MissingBindSeparator)
    case Some((target, bind)) =>
      match SplitOnce(target, ':')
      case None => Err(MissingPeerSeparator)
      case Some((peer, service)) =>
        if k.parsePeer(peer).None? then Err(InvalidPeerId)
        else match ParseAddr(k, bind)
          case Err(e) => Err(InvalidBindAddr(e))
          case Ok(a) => Ok(ToPeer(k.parsePeer(peer).value, service, a))
  }

  /** Unlike the other two specs, this one accepts an empty service name, and a service name with
      any of the separators of its own form. */
  lemma ToPeerComesBack(k: Codec, t: ToPeer)
    requires Lawful(k)
    ensures ParseToPeer(k, PrintToPeer(k, t)) == Ok(t) <==> !InDomain(t.bind.host, '@') && HostOk(k, t.bind.host)
  {
    var peer := k.printPeer(t.remote);
    var target, bind := peer + ":" + t.service, PrintAddr(k, t.bind);
    assert PrintToPeer(k, t) == target + ['@'] + bind;
    RSplitOnceUndoes(target, '@', bind);
    assert ':' !in peer;
    SplitOnceUndoes(peer, ':', t.service);
    AddrHolds(k, t.bind, '@');
    AddrComesBack(k, t.bind);
    if InDomain(t.bind.host, '@') {
      LongerTarget(k, t);
    }
  }

  /** A peer spec is cut at its last at sign and, before it, at the first colon. */
  lemma ToPeerErrors(k: Codec, s: string, peer: string, name: string, addr: string)
    ensures ParseToPeer(k, s) == Err(MissingBindSeparator) <==> '@' !in s
    ensures s == name + "@" + addr && '@' !in addr && ':' !in name ==> ParseToPeer(k, s) == Err(MissingPeerSeparator)
    ensures s == (peer + ":" + name) + "@" + addr && '@' !in addr && ':' !in peer ==>
              ParseToPeer(k, s) == if k.parsePeer(peer).None? then Err(InvalidPeerId)
                                   else if ParseAddr(k, addr).Err? then Err(InvalidBindAddr(ParseAddr(k, addr).error))
                                   else Ok(ToPeer(k.parsePeer(peer).value, name, ParseAddr(k, addr).value))
  {
    hide ParseAddr, RSplitOnce, SplitOnce;
    RSplitOnceUndoes(name, '@', addr);
    RSplitOnceUndoes(peer + ":" + name, '@', addr);
    SplitOnceUndoes(peer, ':', name);
  }

  /** A bind host with an at sign moves the split, so the service name read back is longer. */
  lemma LongerTarget(k: Codec, t: ToPeer)
    requires Lawful(k) && '@' in PrintAddr(k, t.bind)
    ensures ParseToPeer(k, PrintToPeer(k, t)) != Ok(t)
  {
    hide PrintAddr, ParseAddr;
    var s, peer, bind := PrintToPeer(k, t), k.printPeer(t.remote), PrintAddr(k, t.bind);
    var (target', bind') := RSplitOnce(s, '@').value;
    assert s == (peer + ":" + t.service) + ['@'] + bind;
    RSplitOnceUndoes(peer + ":" + t.service, '@', bind);
    assert target' == s[..|s| - |bind'| - 1];
    var tail := target'[|peer| + 1..];
    assert target' == peer + [':'] + tail;
    SplitOnceUndoes(peer, ':', tail);
    assert |tail| > |t.service|;
  }

  // ----- lists in the environment -----

  function ParseAll<T, E>(items: seq<string>, parse: string -> Result<T, E>): Result<seq<T>, E> {
    if items == [] then Ok([])
    else match parse(items[0])
      case Err(e) => Err(e)
      case Ok(x) =>
        match ParseAll(items[1..], parse)
        case Err(e) => Err(e)
        case Ok(xs) => Ok([x] + xs)
  }

  function PrintAll<T>(xs: seq<T>, print_: T -> string): seq<string> {
    seq(|xs|, i requires 0 <= i < |xs| => print_(xs[i]))
  }

  function FormatList<T>(xs: seq<T>, print_: T -> string): string { Join(PrintAll(xs, print_), ',') }

  function ParseList<T, E>(s: string, parse: string -> Result<T, E>): Result<seq<T>, E> {
    ParseAll(Split(s, ','), parse)
  }

  lemma {:induction false} ParsedLength<T, E>(items: seq<string>, parse: string -> Result<T, E>)
    ensures ParseAll(items, parse).Ok? ==> |ParseAll(items, parse).value| == |items|
  {
    if items != [] { ParsedLength(items[1..], parse); }
  }

  lemma {:induction false} AllComeBack<T, E>(xs: seq<T>, print_: T -> string, parse: string -> Result<T, E>)
    ensures ParseAll(PrintAll(xs, print_), parse) == Ok(xs) <==> forall x | x in xs :: parse(print_(x)) == Ok(x)
  {
    if xs != [] {
      var rest := xs[1..];
      AllComeBack(rest, print_, parse);
      assert PrintAll(xs, print_)[1..] == PrintAll(rest, print_);
      assert xs == [xs[0]] + rest;
      var r := ParseAll(PrintAll(xs, print_), parse);
      if r == Ok(xs) {
        assert r.value[0] == xs[0] && r.value[1..] == rest;
      }
    }
  }

  lemma {:induction false} JoinGrows(items: seq<string>, c: char)
    requires items != []
    ensures |Split(Join(items, c), c)| >= |items|
    ensures |Split(Join(items, c), c)| == |items| ==> forall x | x in items :: c !in x
  {
    if |items| == 1 {
      if c in items[0] { assert |Split(items[0], c)| >= 2; }
    } else {
      SplitAcross(items[0], c, Join(items[1..], c));
      JoinGrows(items[1..], c);
      assert items == [items[0]] + items[1..];
    }
  }

  lemma {:induction false} SplitAcross(a: string, c: char, b: string)
    ensures |Split(a + [c] + b, c)| == |Split(a, c)| + |Split(b, c)|
    decreases |a|
  {
    if c !in a {
      SplitOnceUndoes(a, c, b);
    } else {
      var (x, y) := SplitOnce(a, c).value;
      assert a + [c] + b == x + [c] + (y + [c] + b);
      SplitOnceUndoes(x, c, y + [c] + b);
      SplitAcross(y, c, b);
    }
  }

  /** A nonempty list is read back from the environment exactly when every item is read back and no
      item holds the comma the list is joined with. */
  lemma ListComesBack<T, E>(xs: seq<T>, print_: T -> string, parse: string -> Result<T, E>)
    requires xs != []
    ensures ParseList(FormatList(xs, print_), parse) == Ok(xs)
            <==> forall x | x in xs :: ',' !in print_(x) && parse(print_(x)) == Ok(x)
  {
    var items := PrintAll(xs, print_);
    JoinComesBack(items, ',');
    JoinGrows(items, ',');
    ParsedLength(Split(Join(items, ','), ','), parse);
    AllComeBack(xs, print_, parse);
    forall x | x in xs ensures print_(x) in items {
      var i :| 0 <= i < |xs| && xs[i] == x;
      assert items[i] == print_(x);
    }
  }

  /** The values of the three variables `punchgate up` writes, and exactly when each is read back
      unchanged. How the value survives in a line of the file is not part of this. */
  lemma EnvironmentComesBack(k: Codec, exposed: seq<Exposed>, byName: seq<ByName>, toPeer: seq<ToPeer>)
    requires Lawful(k)
    ensures exposed != [] ==>
              (ParseList(FormatList(exposed, (e: Exposed) => PrintExposed(k, e)), s => ParseExposed(k, s))
                  == Ok(exposed)
               <==> forall e | e in exposed ::
                      e.name != "" && '=' !in e.name && ',' !in e.name
                      && HostOk(k, e.addr.host) && !InDomain(e.addr.host, ','))
    ensures byName != [] ==>
              (ParseList(FormatList(byName, (t: ByName) => PrintByName(k, t)), s => ParseByName(k, s)) == Ok(byName)
               <==> forall t | t in byName ::
                      t.service != "" && ',' !in t.service
                      && HostOk(k, t.bind.host) && !InDomain(t.bind.host, '@') && !InDomain(t.bind.host, ','))
    ensures toPeer != [] ==>
              (ParseList(FormatList(toPeer, (t: ToPeer) => PrintToPeer(k, t)), s => ParseToPeer(k, s)) == Ok(toPeer)
               <==> forall t | t in toPeer ::
                      ',' !in t.service
                      && HostOk(k, t.bind.host) && !InDomain(t.bind.host, '@') && !InDomain(t.bind.host, ','))
  {
    if exposed != [] { ListComesBack(exposed, (e: Exposed) => PrintExposed(k, e), s => ParseExposed(k, s)); }
    if byName != [] { ListComesBack(byName, (t: ByName) => PrintByName(k, t), s => ParseByName(k, s)); }
    if toPeer != [] { ListComesBack(toPeer, (t: ToPeer) => PrintToPeer(k, t), s => ParseToPeer(k, s)); }
    forall e: Exposed ensures ',' in PrintExposed(k, e) <==> ',' in e.name || InDomain(e.addr.host, ',') {
      AddrHolds(k, e.addr, ',');
    }
    forall t: ByName ensures ',' in PrintByName(k, t) <==> ',' in t.service || InDomain(t.bind.host, ',') {
      AddrHolds(k, t.bind, ',');
    }
    forall t: ToPeer ensures ',' in PrintToPeer(k, t) <==> ',' in t.service || InDomain(t.bind.host, ',') {
      AddrHolds(k, t.bind, ',');
      assert ',' !in k.printPeer(t.remote);
    }
    forall e: Exposed ensures ParseExposed(k, PrintExposed(k, e)) == Ok(e)
                              <==> e.name != "" && '=' !in e.name && HostOk(k, e.addr.host) {
      ExposedComesBack(k, e);
    }
    forall t: ByName ensures ParseByName(k, PrintByName(k, t)) == Ok(t)
                             <==> t.service != "" && !InDomain(t.bind.host, '@') && HostOk(k, t.bind.host) {
      ByNameComesBack(k, t);
    }
    forall t: ToPeer ensures ParseToPeer(k, PrintToPeer(k, t)) == Ok(t)
                             <==> !InDomain(t.bind.host, '@') && HostOk(k, t.bind.host) {
      ToPeerComesBack(k, t);
    }
  }
}
