/** Fake addresses for domains (src/dns/mod.rs, `FakeIPDNS`): cursors that walk an address block, and
    one string table that holds domain to address, address to domain, and the cursors. */
module FakeIp {
  import opened Wire

  const U64 := 0x1_0000_0000_0000_0000

  // ─── Address arithmetic ─────────────────────────────────────────────────────

  function Pow2(n: nat): (p: nat)
    ensures p > 0
  {
    if n == 0 then 1 else 2 * Pow2(n - 1)
  }

  lemma {:induction false} Pow2Add(m: nat, n: nat)
    ensures Pow2(m + n) == Pow2(m) * Pow2(n)
  {
    if m > 0 {
      Pow2Add(m - 1, n);
      assert Pow2(m + n) == 2 * Pow2(m - 1 + n);
    }
  }

  lemma Pow2Width()
    ensures Pow2(32) == 0x1_0000_0000 && Pow2(64) == U64
  {
    assert Pow2(8) == 256;
    Pow2Add(8, 8);
    Pow2Add(16, 16);
    Pow2Add(32, 32);
  }

  datatype Family = V4 | V6

  function Width(f: Family): nat {
    if f == V4 then 32 else 128
  }

  /** A block as configured: the address is kept as written, host bits and all. */
  datatype Block = Block(addr: nat, prefix: nat)

  predicate ValidBlock(f: Family, b: Block) {
    b.prefix <= Width(f) && b.addr < Pow2(Width(f))
  }

  function HostBits(f: Family, b: Block): nat
    requires ValidBlock(f, b)
  {
    Width(f) - b.prefix
  }

  /** How many cursors give different addresses. A cursor has 64 bits. */
  function Pool(f: Family, b: Block): (n: nat)
    requires ValidBlock(f, b)
  {
    if f == V6 && b.prefix <= 64 then U64 else Pow2(HostBits(f, b))
  }

  /** `get_fake_ipv4` and `get_fake_ipv6`: the configured address plus an offset. `None` is an addition
      that leaves the address width. */
  function Fake(f: Family, b: Block, cursor: nat): Option<nat>
    requires ValidBlock(f, b)
  {
    var offset := Offset(f, b, cursor);
    if b.addr + offset < Pow2(Width(f)) then Some(b.addr + offset) else None
  }

  function Network(f: Family, b: Block, ip: nat): nat
    requires ValidBlock(f, b)
  {
    ip / Pow2(HostBits(f, b))
  }

  predicate Contains(f: Family, b: Block, ip: nat)
    requires ValidBlock(f, b)
  {
    Network(f, b, ip) == Network(f, b, b.addr)
  }

  /** How far into its network the configured address lies. */
  function Skew(f: Family, b: Block): nat
    requires ValidBlock(f, b)
  {
    b.addr % Pow2(HostBits(f, b))
  }

  ghost predicate AllInside(f: Family, b: Block)
    requires ValidBlock(f, b)
  {
    forall cursor :: 0 <= cursor < U64 ==> Inside(f, b, cursor)
  }

  lemma Blocks(addr: nat, offset: nat, size: nat)
    requires size > 0 && offset < size
    ensures (addr + offset) / size == addr / size <==> addr % size + offset < size
  {
    var q, r := addr / size, addr % size;
    assert addr == q * size + r;
    if r + offset < size {
      DivisionIs(addr + offset, size, q, r + offset);
    } else {
      DivisionIs(addr + offset, size, q + 1, r + offset - size);
    }
  }

  lemma DivisionIs(n: nat, size: nat, q: nat, r: nat)
    requires size > 0 && n == q * size + r && r < size
    ensures n / size == q && n % size == r
  {
    var d := n / size - q;
    assert n == (n / size) * size + n % size;
    assert d * size == r - n % size;
    if d != 0 {
      MulFar(d, size);
    }
  }

  lemma MulFar(d: int, size: int)
    requires d != 0 && size > 0
    ensures d * size >= size || d * size <= -size
  {
    if d > 0 {
      MulNonNegative(d - 1, size);
    } else {
      MulNonNegative(-d - 1, size);
    }
  }

  lemma MulNonNegative(a: int, b: int)
    requires a >= 0 && b >= 0
    ensures a * b >= 0
  {
  }

  lemma MulSign(e: int, size: int)
    requires size > 0
    ensures e <= 0 ==> e * size <= 0
    ensures e >= 1 ==> e * size >= size
  {
    if e <= 0 {
      MulNonNegative(-e, size);
    } else {
      MulNonNegative(e - 1, size);
    }
  }

  /** The end of the network the configured address lies in is within the address width. */
  lemma NetworkFits(f: Family, b: Block, offset: nat)
    requires ValidBlock(f, b) && Skew(f, b) + offset < Pow2(HostBits(f, b))
    ensures b.addr + offset < Pow2(Width(f))
  {
    hide Pow2;
    Pow2Add(b.prefix, HostBits(f, b));
    BlockEnd(b.addr, Pow2(HostBits(f, b)), Pow2(b.prefix), offset);
  }

  lemma BlockEnd(addr: nat, size: nat, nets: nat, offset: nat)
    requires size > 0 && addr < nets * size && addr % size + offset < size
    ensures addr + offset < nets * size
  {
    var q := addr / size;
    assert addr == q * size + addr % size;
    MulSign(nets - q, size);
    assert (nets - q) * size == nets * size - q * size;
  }

  /** An offset smaller than the network stays inside it if and only if it fits behind the address. */
  lemma OffsetInside(f: Family, b: Block, offset: nat)
    requires ValidBlock(f, b) && offset < Pow2(HostBits(f, b))
    ensures (b.addr + offset < Pow2(Width(f)) && Contains(f, b, b.addr + offset))
            <==> Skew(f, b) + offset < Pow2(HostBits(f, b))
  {
    Blocks(b.addr, offset, Pow2(HostBits(f, b)));
    if Skew(f, b) + offset < Pow2(HostBits(f, b)) {
      NetworkFits(f, b, offset);
    }
  }

  lemma {:induction false} Pow2Mono(m: nat, n: nat)
    requires m <= n
    ensures Pow2(m) <= Pow2(n)
    decreases n
  {
    if m < n {
      Pow2Mono(m, n - 1);
    }
  }

  function Offset(f: Family, b: Block, cursor: nat): nat
    requires ValidBlock(f, b)
  {
    if f == V6 && b.prefix <= 64 then cursor else cursor % Pool(f, b)
  }

  predicate Inside(f: Family, b: Block, cursor: nat)
    requires ValidBlock(f, b)
  {
    Fake(f, b, cursor).Some? && Contains(f, b, Fake(f, b, cursor).value)
  }

  lemma InsideIff(f: Family, b: Block, cursor: nat)
    requires ValidBlock(f, b) && cursor < U64
    ensures Inside(f, b, cursor) <==> Skew(f, b) + Offset(f, b, cursor) < Pow2(HostBits(f, b))
  {
    hide Pow2;
    Pow2Width();
    if f == V6 && b.prefix <= 64 {
      Pow2Mono(64, HostBits(f, b));
    }
    OffsetInside(f, b, Offset(f, b, cursor));
  }

  /** IPv4, and IPv6 blocks longer than 64 bits: every address the cursors give lies in the block if
      and only if the configured address is the network address. */
  lemma InsideIffAligned(f: Family, b: Block)
    requires ValidBlock(f, b) && (f == V4 || b.prefix > 64)
    ensures AllInside(f, b) <==> Skew(f, b) == 0
  {
    hide Pow2, Fake, Contains;
    Pow2Width();
    var size := Pow2(HostBits(f, b));
    Pow2Mono(HostBits(f, b), 64);
    forall cursor | 0 <= cursor < U64
      ensures Inside(f, b, cursor) <==> Skew(f, b) + cursor % size < size
    {
      InsideIff(f, b, cursor);
    }
    if Skew(f, b) != 0 {
      var cursor := size - Skew(f, b);
      DivisionIs(cursor, size, 0, cursor);
      assert !Inside(f, b, cursor);
    }
  }

  /** Shorter IPv6 blocks leave at least 64 host bits and take the cursor as it is: the addresses stay
      inside if and only if a whole cursor range fits behind the configured address, as it does behind
      a network address. */
  lemma InsideIffRangeFits(b: Block)
    requires ValidBlock(V6, b) && b.prefix <= 64
    ensures AllInside(V6, b) <==> Skew(V6, b) + U64 <= Pow2(HostBits(V6, b))
    ensures Skew(V6, b) == 0 ==> AllInside(V6, b)
  {
    hide Pow2, Fake, Contains;
    Pow2Width();
    Pow2Mono(64, HostBits(V6, b));
    forall cursor | 0 <= cursor < U64
      ensures Inside(V6, b, cursor) <==> Skew(V6, b) + cursor < Pow2(HostBits(V6, b))
    {
      InsideIff(V6, b, cursor);
    }
    assert AllInside(V6, b) ==> Inside(V6, b, U64 - 1);
  }

  /** Two cursors that are the same to the block: equal, or a whole number of laps of the pool
      apart where the cursor is taken modulo its size. */
  predicate Congruent(f: Family, b: Block, j: nat, k: nat)
    requires ValidBlock(f, b)
  {
    if f == V6 && b.prefix <= 64 then j == k else j % Pool(f, b) == k % Pool(f, b)
  }

  /** Exactly then they give the same address, on whichever lap. */
  lemma SameAddressIff(f: Family, b: Block, j: nat, k: nat)
    requires ValidBlock(f, b)
    ensures Fake(f, b, j).Some? ==> (Fake(f, b, j) == Fake(f, b, k) <==> Congruent(f, b, j, k))
    ensures Congruent(f, b, j, k) ==> Fake(f, b, j) == Fake(f, b, k)
  {
    hide Pow2;
  }

  /** So within the pool different cursors give different addresses, and one lap later they repeat. */
  lemma CursorsDiffer(f: Family, b: Block, j: nat, k: nat)
    requires ValidBlock(f, b) && j < Pool(f, b) && k < Pool(f, b) && j != k && Fake(f, b, j).Some?
    ensures Fake(f, b, j) != Fake(f, b, k)
  {
    SameAddressIff(f, b, j, k);
    if !(f == V6 && b.prefix <= 64) {
      DivisionIs(j, Pool(f, b), 0, j);
      DivisionIs(k, Pool(f, b), 0, k);
    }
  }

  lemma SecondLapRepeats(f: Family, b: Block, j: nat)
    requires ValidBlock(f, b) && (f == V4 || b.prefix > 64)
    ensures Fake(f, b, j + Pool(f, b)) == Fake(f, b, j)
  {
    var n := Pool(f, b);
    DivisionIs(j + n, n, j / n + 1, j % n);
    SameAddressIff(f, b, j + n, j);
  }

  // ─── The table ──────────────────────────────────────────────────────────────

  /** How addresses and numbers are written, and what `trim` takes off. */
  datatype Text = Text(show: (Family, nat) -> string, number: nat -> string, read: string -> Option<nat>,
                       blank: char -> bool)

  function TrimLeft(s: string, blank: char -> bool): string {
    if s != [] && blank(s[0]) then TrimLeft(s[1..], blank) else s
  }

  function TrimRight(s: string, blank: char -> bool): string {
    if s != [] && blank(s[|s| - 1]) then TrimRight(s[..|s| - 1], blank) else s
  }

  function Trim(s: string, blank: char -> bool): string {
    TrimRight(TrimLeft(s, blank), blank)
  }

  /** Different addresses are written differently, without a capital A; a number written is read
      back. */
  ghost predicate Lawful(t: Text) {
    && (forall f, a, g, b :: t.show(f, a) == t.show(g, b) ==> f == g && a == b)
    && (forall f, a, i :: 0 <= i < |t.show(f, a)| ==> t.show(f, a)[i] != 'A')
    && (forall n: nat :: t.read(Trim(t.number(n), t.blank)) == Some(n))
  }

  datatype Config = Config(v4: Block, v6: Block, text: Text)

  function BlockOf(c: Config, f: Family): Block {
    if f == V4 then c.v4 else c.v6
  }

  ghost predicate Valid(c: Config) {
    ValidBlock(V4, c.v4) && ValidBlock(V6, c.v6) && Lawful(c.text)
  }

  function AddressKey(f: Family, domain: string): string {
    domain + if f == V4 then ":A" else ":AAAA"
  }

  function PointerKey(ip: string): string {
    "ptr:" + ip
  }

  function CursorKey(f: Family): string {
    if f == V4 then "fakeip_ipv4_cursor_index" else "fakeip_ipv6_cursor_index"
  }

  datatype Ask = Ask(family: Family, domain: string)

  /** `cache` outlives the process; the cursors are its memory. `issued` records which cursor value an
      answer was made from. */
  datatype State = State(cache: map<string, string>, cursor4: nat, cursor6: nat, issued: map<Ask, nat>)

  const EMPTY := State(map[], 0, 0, map[])

  function Cursor(s: State, f: Family): nat {
    if f == V4 then s.cursor4 else s.cursor6
  }

  /** `fetch_add`, then the new value into the cache. */
  function Draw(s: State, c: Config, f: Family): State {
    var next := (Cursor(s, f) + 1) % U64;
    var s1 := if f == V4 then s.(cursor4 := next) else s.(cursor6 := next);
    s1.(cache := s.cache[CursorKey(f) := c.text.number(next)])
  }

  /** `resolve_internal`. */
  function Resolve(s: State, c: Config, ask: Ask): (State, Option<string>)
    requires ValidBlock(V4, c.v4) && ValidBlock(V6, c.v6)
  {
    var key := AddressKey(ask.family, ask.domain);
    if key in s.cache then (s, Some(s.cache[key]))
    else
      var cursor := Cursor(s, ask.family);
      var s1 := Draw(s, c, ask.family);
      match Fake(ask.family, BlockOf(c, ask.family), cursor)
      case None => (s1, None)
      case Some(a) =>
        var ip := c.text.show(ask.family, a);
        (s1.(cache := s1.cache[key := ip][PointerKey(ip) := ask.domain], issued := s1.issued[ask := cursor]), Some(ip))
  }

  function ReverseLookup(s: State, c: Config, ip: string): Option<string> {
    if PointerKey(ip) !in s.cache then None
    else
      var domain := Trim(s.cache[PointerKey(ip)], c.text.blank);
      if domain == "" then None else Some(domain)
  }

  function LoadCursor(cache: map<string, string>, c: Config, f: Family): nat {
    if CursorKey(f) !in cache then 0
    else match c.text.read(Trim(cache[CursorKey(f)], c.text.blank))
      case Some(n) => n
      case None => 0
  }

  function Restart(s: State, c: Config): State {
    s.(cursor4 := LoadCursor(s.cache, c, V4), cursor6 := LoadCursor(s.cache, c, V6))
  }

  // ─── Keys do not clash ──────────────────────────────────────────────────────

  lemma AddressKeysDiffer(f: Family, d: string, g: Family, e: string)
    requires AddressKey(f, d) == AddressKey(g, e)
    ensures f == g && d == e
  {
    var k, l := AddressKey(f, d), AddressKey(g, e);
    assert k[|k| - 2] == if f == V4 then ':' else 'A';
    assert l[|l| - 2] == if g == V4 then ':' else 'A';
    assert d == k[..|d|] && e == l[..|e|];
  }

  lemma AddressKeyIsNoOther(f: Family, d: string, g: Family, c: Config, h: Family, a: nat)
    requires Lawful(c.text)
    ensures AddressKey(f, d) != CursorKey(g)
    ensures AddressKey(f, d) != PointerKey(c.text.show(h, a))
    ensures CursorKey(g) != PointerKey(c.text.show(h, a))
  {
    var k, p, u := AddressKey(f, d), PointerKey(c.text.show(h, a)), CursorKey(g);
    assert k[|k| - 1] == 'A' && u[|u| - 1] != 'A';
    assert p[|p| - 1] != 'A';
    assert p[0] == 'p' && u[0] == 'f';
  }

  lemma PointerKeysDiffer(c: Config, f: Family, a: nat, g: Family, b: nat)
    requires Lawful(c.text) && PointerKey(c.text.show(f, a)) == PointerKey(c.text.show(g, b))
    ensures f == g && a == b
  {
    var p, q := PointerKey(c.text.show(f, a)), PointerKey(c.text.show(g, b));
    assert p[4..] == c.text.show(f, a) && q[4..] == c.text.show(g, b);
  }

  // ─── Runs ───────────────────────────────────────────────────────────────────

  /** The entry of an answer: its address was made from a cursor already used, and its pointer leads
      back. */
  ghost predicate Recorded(s: State, c: Config, ask: Ask)
    requires Valid(c) && ask in s.issued
  {
    var a := Fake(ask.family, BlockOf(c, ask.family), s.issued[ask]);
    && s.issued[ask] < Cursor(s, ask.family)
    && a.Some?
    && var ip := c.text.show(ask.family, a.value);
       && AddressKey(ask.family, ask.domain) in s.cache && s.cache[AddressKey(ask.family, ask.domain)] == ip
       && PointerKey(ip) in s.cache && s.cache[PointerKey(ip)] == ask.domain
  }

  ghost predicate Inv(s: State, c: Config)
    requires Valid(c)
  {
    && (forall ask :: ask in s.issued ==> Recorded(s, c, ask))
    && (forall f, d :: AddressKey(f, d) in s.cache ==> Ask(f, d) in s.issued)
    && (forall x, y :: x in s.issued && y in s.issued && x.family == y.family && x != y ==> s.issued[x] != s.issued[y])
    && (forall f :: Cursor(s, f) <= Pool(f, BlockOf(c, f)) && LoadCursor(s.cache, c, f) == Cursor(s, f) < U64)
  }

  /** The pool has a cursor left, unless the answer is known. */
  predicate Legal(s: State, c: Config, ask: Ask)
    requires ValidBlock(V4, c.v4) && ValidBlock(V6, c.v6)
  {
    AddressKey(ask.family, ask.domain) in s.cache
    || (Cursor(s, ask.family) < Pool(ask.family, BlockOf(c, ask.family)) && Cursor(s, ask.family) + 1 < U64)
  }

  lemma CursorKeysDiffer()
    ensures CursorKey(V4) != CursorKey(V6)
  {
    assert CursorKey(V4)[10] != CursorKey(V6)[10];
  }

  lemma DrawKeeps(s: State, c: Config, f: Family)
    requires Valid(c) && Inv(s, c) && Cursor(s, f) < Pool(f, BlockOf(c, f)) && Cursor(s, f) + 1 < U64
    ensures Inv(Draw(s, c, f), c) && Cursor(Draw(s, c, f), f) == Cursor(s, f) + 1
  {
    hide Trim, Fake, AddressKey, PointerKey, Pool, CursorKey;
    DrawSavesCursor(s, c, f);
    var s' := Draw(s, c, f);
    forall ask | ask in s'.issued
      ensures Recorded(s', c, ask)
    {
      assert Recorded(s, c, ask);
      var a := Fake(ask.family, BlockOf(c, ask.family), s.issued[ask]).value;
      AddressKeyIsNoOther(ask.family, ask.domain, f, c, ask.family, a);
    }
    forall g, d | AddressKey(g, d) in s'.cache
      ensures Ask(g, d) in s'.issued
    {
      AddressKeyIsNoOther(g, d, f, c, g, 0);
    }
  }

  lemma DrawSavesCursor(s: State, c: Config, f: Family)
    requires Lawful(c.text) && Cursor(s, f) + 1 < U64
    requires forall g :: LoadCursor(s.cache, c, g) == Cursor(s, g) < U64
    ensures forall g :: LoadCursor(Draw(s, c, f).cache, c, g) == Cursor(Draw(s, c, f), g) < U64
    ensures forall g :: Cursor(Draw(s, c, f), g) == Cursor(s, g) + if g == f then 1 else 0
  {
    hide Trim, CursorKey;
    CursorKeysDiffer();
    forall g
      ensures LoadCursor(Draw(s, c, f).cache, c, g) == Cursor(Draw(s, c, f), g) < U64
    {
      assert LoadCursor(s.cache, c, g) == Cursor(s, g);
    }
  }

  lemma ResolveKeeps(s: State, c: Config, ask: Ask)
    requires Valid(c) && Inv(s, c) && Legal(s, c, ask)
    ensures Inv(Resolve(s, c, ask).0, c)
  {
    hide Draw, Inv, Fake;
    var key := AddressKey(ask.family, ask.domain);
    if key !in s.cache {
      var cursor := Cursor(s, ask.family);
      DrawKeeps(s, c, ask.family);
      var s1 := Draw(s, c, ask.family);
      assert key !in s1.cache && ask !in s1.issued by { StillUnknown(s, c, ask); }
      match Fake(ask.family, BlockOf(c, ask.family), cursor)
      case None =>
      case Some(a) =>
        assert forall x :: x in s1.issued && x.family == ask.family ==> s1.issued[x] != cursor by {
          Below(s, c, ask.family);
        }
        IssueKeeps(s1, c, ask, cursor, a);
    }
  }

  lemma StillUnknown(s: State, c: Config, ask: Ask)
    requires Valid(c) && Inv(s, c) && AddressKey(ask.family, ask.domain) !in s.cache
    ensures AddressKey(ask.family, ask.domain) !in Draw(s, c, ask.family).cache
    ensures ask !in Draw(s, c, ask.family).issued
  {
    hide Fake, AddressKey, PointerKey, CursorKey, Lawful;
    AddressKeyIsNoOther(ask.family, ask.domain, ask.family, c, ask.family, 0);
    assert forall x :: x in s.issued ==> Recorded(s, c, x);
  }

  lemma Below(s: State, c: Config, f: Family)
    requires Valid(c) && Inv(s, c)
    ensures Draw(s, c, f).issued == s.issued
    ensures forall x :: x in s.issued && x.family == f ==> s.issued[x] < Cursor(s, f)
  {
    assert forall x :: x in s.issued ==> Recorded(s, c, x);
  }

  /** Writing down a new answer disturbs none of the earlier ones, since its address is new. */
  lemma IssueKeeps(s: State, c: Config, ask: Ask, cursor: nat, a: nat)
    requires Valid(c) && Inv(s, c) && ask !in s.issued && AddressKey(ask.family, ask.domain) !in s.cache
    requires cursor < Cursor(s, ask.family) && Fake(ask.family, BlockOf(c, ask.family), cursor) == Some(a)
    requires forall x :: x in s.issued && x.family == ask.family ==> s.issued[x] != cursor
    ensures var ip := c.text.show(ask.family, a);
            var cache := s.cache[AddressKey(ask.family, ask.domain) := ip][PointerKey(ip) := ask.domain];
            Inv(s.(cache := cache, issued := s.issued[ask := cursor]), c)
  {
    hide Fake, AddressKey, PointerKey, CursorKey, Lawful, Pool, Trim;
    var ip := c.text.show(ask.family, a);
    var key := AddressKey(ask.family, ask.domain);
    var cache := s.cache[key := ip][PointerKey(ip) := ask.domain];
    var s' := s.(cache := cache, issued := s.issued[ask := cursor]);
    AddressKeyIsNoOther(ask.family, ask.domain, ask.family, c, ask.family, a);
    forall x | x in s'.issued
      ensures Recorded(s', c, x)
    {
      if x != ask {
        assert Recorded(s, c, x);
        OthersUndisturbed(s, c, ask, cursor, a, x);
      }
    }
    forall f, d | AddressKey(f, d) in s'.cache
      ensures Ask(f, d) in s'.issued
    {
      AddressKeyIsNoOther(f, d, f, c, ask.family, a);
      if AddressKey(f, d) == key {
        AddressKeysDiffer(f, d, ask.family, ask.domain);
      }
    }
    forall f
      ensures LoadCursor(s'.cache, c, f) == Cursor(s', f)
    {
      AddressKeyIsNoOther(ask.family, ask.domain, f, c, ask.family, a);
      assert LoadCursor(s.cache, c, f) == Cursor(s, f);
    }
  }

  lemma OthersUndisturbed(s: State, c: Config, ask: Ask, cursor: nat, a: nat, x: Ask)
    requires Valid(c) && Inv(s, c) && x in s.issued && x != ask
    requires cursor < Cursor(s, ask.family) && Fake(ask.family, BlockOf(c, ask.family), cursor) == Some(a)
    requires x.family == ask.family ==> s.issued[x] != cursor
    ensures var b := Fake(x.family, BlockOf(c, x.family), s.issued[x]);
            && b.Some?
            && AddressKey(x.family, x.domain) != AddressKey(ask.family, ask.domain)
            && AddressKey(x.family, x.domain) != PointerKey(c.text.show(ask.family, a))
            && PointerKey(c.text.show(x.family, b.value)) != AddressKey(ask.family, ask.domain)
            && PointerKey(c.text.show(x.family, b.value)) != PointerKey(c.text.show(ask.family, a))
  {
    hide Fake, AddressKey, PointerKey, CursorKey, Lawful, Pool;
    assert Recorded(s, c, x);
    var b := Fake(x.family, BlockOf(c, x.family), s.issued[x]).value;
    AddressKeyIsNoOther(x.family, x.domain, V4, c, ask.family, a);
    AddressKeyIsNoOther(ask.family, ask.domain, V4, c, x.family, b);
    if AddressKey(x.family, x.domain) == AddressKey(ask.family, ask.domain) {
      AddressKeysDiffer(x.family, x.domain, ask.family, ask.domain);
    }
    if x.family == ask.family {
      assert Cursor(s, x.family) <= Pool(x.family, BlockOf(c, x.family));
      CursorsDiffer(x.family, BlockOf(c, x.family), s.issued[x], cursor);
    }
    if PointerKey(c.text.show(x.family, b)) == PointerKey(c.text.show(ask.family, a)) {
      PointerKeysDiffer(c, x.family, b, ask.family, a);
    }
  }

  datatype Event = ResolveEvent(ask: Ask) | RestartEvent

  function Step(s: State, c: Config, e: Event): State
    requires ValidBlock(V4, c.v4) && ValidBlock(V6, c.v6)
  {
    match e
    case ResolveEvent(ask) => Resolve(s, c, ask).0
    case RestartEvent => Restart(s, c)
  }

  predicate Runs(s: State, c: Config, es: seq<Event>)
    requires ValidBlock(V4, c.v4) && ValidBlock(V6, c.v6)
    decreases |es|
  {
    es == [] || ((es[0].ResolveEvent? ==> Legal(s, c, es[0].ask)) && Runs(Step(s, c, es[0]), c, es[1..]))
  }

  function After(s: State, c: Config, es: seq<Event>): State
    requires ValidBlock(V4, c.v4) && ValidBlock(V6, c.v6)
    decreases |es|
  {
    if es == [] then s else After(Step(s, c, es[0]), c, es[1..])
  }

  /** A restart loads the cursors it saved. */
  lemma RestartKeeps(s: State, c: Config)
    requires Valid(c) && Inv(s, c)
    ensures Restart(s, c) == s
  {
    assert LoadCursor(s.cache, c, V4) == Cursor(s, V4) && LoadCursor(s.cache, c, V6) == Cursor(s, V6);
  }

  lemma {:induction false} RunKeepsInv(s: State, c: Config, es: seq<Event>)
    requires Valid(c) && Inv(s, c) && Runs(s, c, es)
    ensures Inv(After(s, c, es), c)
    decreases |es|
  {
    hide Inv, Resolve, Legal, ValidBlock, Lawful, Restart;
    if es != [] {
      if es[0].ResolveEvent? {
        ResolveKeeps(s, c, es[0].ask);
      } else {
        RestartKeeps(s, c);
      }
      RunKeepsInv(Step(s, c, es[0]), c, es[1..]);
    }
  }

  lemma EmptyInv(c: Config)
    requires Valid(c)
    ensures Inv(EMPTY, c)
  {
  }

  /** Resolving two domains in any run within the pool: different domains get different addresses,
      the same one gets the same again, and the address leads back to the domain, trimmed, unless
      nothing is left of it. It leads back to the very domain exactly when that is not empty and has
      no blanks around it. */
  lemma AnswersAreDistinctAndReversible(c: Config, es: seq<Event>, x: Ask, y: Ask)
    requires Valid(c) && Runs(EMPTY, c, es)
    requires x in After(EMPTY, c, es).issued && y in After(EMPTY, c, es).issued
    ensures var s := After(EMPTY, c, es);
            && Resolve(s, c, x).0 == s && Resolve(s, c, x).1.Some? && Resolve(s, c, y).1.Some?
            && (Resolve(s, c, x).1 == Resolve(s, c, y).1 <==> x == y)
            && var back := ReverseLookup(s, c, Resolve(s, c, x).1.value);
               && (Trim(x.domain, c.text.blank) != "" ==> back == Some(Trim(x.domain, c.text.blank)))
               && (back == Some(x.domain) <==> x.domain != "" && Trim(x.domain, c.text.blank) == x.domain)
  {
    hide After, Fake, AddressKey, PointerKey, CursorKey, Pool, Trim, Draw;
    EmptyInv(c);
    RunKeepsInv(EMPTY, c, es);
    var s := After(EMPTY, c, es);
    assert Recorded(s, c, x) && Recorded(s, c, y);
    if x != y && x.family == y.family {
      CursorsDiffer(x.family, BlockOf(c, x.family), s.issued[x], s.issued[y]);
    }
  }

  // ─── Beyond the pool ────────────────────────────────────────────────────────

  /** Two questions answered from cursors that are the same to their block. */
  predicate Collide(s: State, c: Config, x: Ask, y: Ask)
    requires ValidBlock(V4, c.v4) && ValidBlock(V6, c.v6) && x in s.issued && y in s.issued
  {
    x.family == y.family && Congruent(x.family, BlockOf(c, x.family), s.issued[x], s.issued[y])
  }

  /** The pointer entry of this address names the domain of a question answered with it. */
  ghost predicate PointsBack(s: State, c: Config, ip: string, x: Ask)
    requires ValidBlock(V4, c.v4) && ValidBlock(V6, c.v6) && x in s.issued
  {
    && PointerKey(ip) in s.cache
    && exists z :: z in s.issued && Collide(s, c, x, z) && s.cache[PointerKey(ip)] == z.domain
  }

  /** What is left of `Recorded` when the pool has run out. */
  ghost predicate Answered(s: State, c: Config, ask: Ask)
    requires Valid(c) && ask in s.issued
  {
    var a := Fake(ask.family, BlockOf(c, ask.family), s.issued[ask]);
    && a.Some?
    && var ip := c.text.show(ask.family, a.value);
       && AddressKey(ask.family, ask.domain) in s.cache && s.cache[AddressKey(ask.family, ask.domain)] == ip
       && PointsBack(s, c, ip, ask)
  }

  ghost predicate LooseInv(s: State, c: Config)
    requires Valid(c)
  {
    && (forall ask :: ask in s.issued ==> Answered(s, c, ask))
    && (forall f, d :: AddressKey(f, d) in s.cache ==> Ask(f, d) in s.issued)
  }

  /** The answer to `x` stands when its two entries and the cursors recorded are as they were. */
  lemma AnsweredStays(s: State, s': State, c: Config, x: Ask)
    requires Valid(c) && x in s.issued && Answered(s, c, x)
    requires forall z :: z in s.issued ==> z in s'.issued && s'.issued[z] == s.issued[z]
    requires var ip := c.text.show(x.family, Fake(x.family, BlockOf(c, x.family), s.issued[x]).value);
             && AddressKey(x.family, x.domain) in s'.cache
             && s'.cache[AddressKey(x.family, x.domain)] == s.cache[AddressKey(x.family, x.domain)]
             && PointerKey(ip) in s'.cache && s'.cache[PointerKey(ip)] == s.cache[PointerKey(ip)]
    ensures Answered(s', c, x)
  {
    hide Fake, AddressKey, PointerKey, Congruent, Lawful;
    var ip := c.text.show(x.family, Fake(x.family, BlockOf(c, x.family), s.issued[x]).value);
    var z :| z in s.issued && Collide(s, c, x, z) && s.cache[PointerKey(ip)] == z.domain;
    assert Collide(s', c, x, z);
  }

  lemma DrawKeepsLoose(s: State, c: Config, f: Family)
    requires Valid(c) && LooseInv(s, c)
    ensures LooseInv(Draw(s, c, f), c) && Draw(s, c, f).issued == s.issued
    ensures forall g, d :: AddressKey(g, d) in Draw(s, c, f).cache ==> AddressKey(g, d) in s.cache
  {
    hide Fake, AddressKey, PointerKey, CursorKey, PointsBack, Lawful;
    var s' := Draw(s, c, f);
    forall ask | ask in s'.issued
      ensures Answered(s', c, ask)
    {
      assert Answered(s, c, ask);
      var a := Fake(ask.family, BlockOf(c, ask.family), s.issued[ask]).value;
      assert PointerKey(c.text.show(ask.family, a)) in s.cache by { PointerThere(s, c, ask); }
      AddressKeyIsNoOther(ask.family, ask.domain, f, c, ask.family, a);
      AnsweredStays(s, s', c, ask);
    }
    forall g, d | AddressKey(g, d) in s'.cache
      ensures AddressKey(g, d) in s.cache
    {
      AddressKeyIsNoOther(g, d, f, c, g, 0);
    }
  }

  lemma PointerThere(s: State, c: Config, x: Ask)
    requires Valid(c) && x in s.issued && Answered(s, c, x)
    ensures PointerKey(c.text.show(x.family, Fake(x.family, BlockOf(c, x.family), s.issued[x]).value)) in s.cache
  {
    hide Fake, AddressKey, PointerKey, CursorKey, Lawful;
  }

  /** The state after a new answer has been written down. */
  function Issue(s: State, c: Config, ask: Ask, cursor: nat, a: nat): State {
    var ip := c.text.show(ask.family, a);
    s.(cache := s.cache[AddressKey(ask.family, ask.domain) := ip][PointerKey(ip) := ask.domain],
       issued := s.issued[ask := cursor])
  }

  lemma IssueKeepsLoose(s: State, c: Config, ask: Ask, cursor: nat, a: nat)
    requires Valid(c) && LooseInv(s, c) && ask !in s.issued
    requires Fake(ask.family, BlockOf(c, ask.family), cursor) == Some(a)
    ensures LooseInv(Issue(s, c, ask, cursor, a), c)
  {
    hide Fake, AddressKey, PointerKey, CursorKey, Lawful, Answered;
    var s' := Issue(s, c, ask, cursor, a);
    NewAnswered(s, c, ask, cursor, a);
    forall x | x in s'.issued
      ensures Answered(s', c, x)
    {
      if x != ask {
        OthersAnswered(s, c, ask, cursor, a, x);
      }
    }
    forall f, d | AddressKey(f, d) in s'.cache
      ensures Ask(f, d) in s'.issued
    {
      AddressKeyIsNoOther(f, d, f, c, ask.family, a);
      if AddressKey(f, d) == AddressKey(ask.family, ask.domain) {
        AddressKeysDiffer(f, d, ask.family, ask.domain);
      }
    }
  }

  lemma NewAnswered(s: State, c: Config, ask: Ask, cursor: nat, a: nat)
    requires Valid(c) && Fake(ask.family, BlockOf(c, ask.family), cursor) == Some(a)
    ensures Answered(Issue(s, c, ask, cursor, a), c, ask)
  {
    hide Fake, AddressKey, PointerKey, CursorKey, Lawful;
    AddressKeyIsNoOther(ask.family, ask.domain, ask.family, c, ask.family, a);
    assert Collide(Issue(s, c, ask, cursor, a), c, ask, ask);
  }

  /** An address given out again takes its pointer entry along; every other answer is undisturbed. */
  lemma OthersAnswered(s: State, c: Config, ask: Ask, cursor: nat, a: nat, x: Ask)
    requires Valid(c) && x in s.issued && Answered(s, c, x) && ask !in s.issued
    requires Fake(ask.family, BlockOf(c, ask.family), cursor) == Some(a)
    ensures Answered(Issue(s, c, ask, cursor, a), c, x)
  {
    hide Fake, AddressKey, PointerKey, CursorKey, Lawful, PointsBack;
    var b := Fake(x.family, BlockOf(c, x.family), s.issued[x]).value;
    AddressKeyIsNoOther(x.family, x.domain, V4, c, ask.family, a);
    AddressKeyIsNoOther(ask.family, ask.domain, V4, c, x.family, b);
    if AddressKey(x.family, x.domain) == AddressKey(ask.family, ask.domain) {
      AddressKeysDiffer(x.family, x.domain, ask.family, ask.domain);
    }
    if PointerKey(c.text.show(x.family, b)) == PointerKey(c.text.show(ask.family, a)) {
      PointerKeysDiffer(c, x.family, b, ask.family, a);
      SharedAnswered(s, c, ask, cursor, a, x);
    } else {
      PointerThere(s, c, x);
      AnsweredStays(s, Issue(s, c, ask, cursor, a), c, x);
    }
  }

  lemma SharedAnswered(s: State, c: Config, ask: Ask, cursor: nat, a: nat, x: Ask)
    requires Valid(c) && x in s.issued && Answered(s, c, x) && ask !in s.issued && x.family == ask.family
    requires Fake(ask.family, BlockOf(c, ask.family), cursor) == Some(a)
    requires Fake(ask.family, BlockOf(c, ask.family), s.issued[x]) == Some(a)
    requires AddressKey(x.family, x.domain) != AddressKey(ask.family, ask.domain)
    requires AddressKey(x.family, x.domain) != PointerKey(c.text.show(ask.family, a))
    ensures Answered(Issue(s, c, ask, cursor, a), c, x)
  {
    hide Fake, AddressKey, PointerKey, CursorKey, Lawful;
    SameAddressIff(x.family, BlockOf(c, x.family), s.issued[x], cursor);
    assert Collide(Issue(s, c, ask, cursor, a), c, x, ask);
  }

  lemma StepKeepsLoose(s: State, c: Config, e: Event)
    requires Valid(c) && LooseInv(s, c)
    ensures LooseInv(Step(s, c, e), c)
  {
    match e
    case RestartEvent => RestartKeepsLoose(s, c);
    case ResolveEvent(ask) => ResolveKeepsLoose(s, c, ask);
  }

  lemma RestartKeepsLoose(s: State, c: Config)
    requires Valid(c) && LooseInv(s, c)
    ensures LooseInv(Restart(s, c), c)
  {
    hide Fake, AddressKey, PointerKey, CursorKey, Lawful, LoadCursor, PointsBack;
    forall ask | ask in s.issued
      ensures Answered(Restart(s, c), c, ask)
    {
      assert Answered(s, c, ask);
      PointerThere(s, c, ask);
      AnsweredStays(s, Restart(s, c), c, ask);
    }
  }

  lemma ResolveKeepsLoose(s: State, c: Config, ask: Ask)
    requires Valid(c) && LooseInv(s, c)
    ensures LooseInv(Resolve(s, c, ask).0, c)
  {
    hide Fake, AddressKey, PointerKey, Lawful, Draw, LooseInv;
    if AddressKey(ask.family, ask.domain) !in s.cache {
      DrawKeepsLoose(s, c, ask.family);
      assert ask !in s.issued by {
        if ask in s.issued {
          AnsweredIsCached(s, c, ask);
        }
      }
      var cursor := Cursor(s, ask.family);
      if Fake(ask.family, BlockOf(c, ask.family), cursor).Some? {
        IssueKeepsLoose(Draw(s, c, ask.family), c, ask, cursor, Fake(ask.family, BlockOf(c, ask.family), cursor).value);
      }
    }
  }

  lemma AnsweredIsCached(s: State, c: Config, ask: Ask)
    requires Valid(c) && LooseInv(s, c) && ask in s.issued
    ensures AddressKey(ask.family, ask.domain) in s.cache
  {
    assert Answered(s, c, ask);
  }

  lemma {:induction false} RunKeepsLoose(s: State, c: Config, es: seq<Event>)
    requires Valid(c) && LooseInv(s, c)
    ensures LooseInv(After(s, c, es), c)
    decreases |es|
  {
    hide LooseInv, Step, ValidBlock, Lawful;
    if es != [] {
      StepKeepsLoose(s, c, es[0]);
      RunKeepsLoose(Step(s, c, es[0]), c, es[1..]);
    }
  }

  /** In every run, however many laps of the pool it makes and even past the end of the 64-bit
      cursors: two domains have the same address if and only if their cursors are congruent, and the
      address leads back, trimmed, to some domain that has it. */
  lemma AnswersCollideIff(c: Config, es: seq<Event>, x: Ask, y: Ask) returns (z: Ask)
    requires Valid(c)
    requires x in After(EMPTY, c, es).issued && y in After(EMPTY, c, es).issued
    ensures var s := After(EMPTY, c, es);
            && Resolve(s, c, x).0 == s && Resolve(s, c, x).1.Some? && Resolve(s, c, y).1.Some?
            && (Resolve(s, c, x).1 == Resolve(s, c, y).1 <==> Collide(s, c, x, y))
            && z in s.issued && Collide(s, c, x, z)
            && var name := Trim(z.domain, c.text.blank);
               ReverseLookup(s, c, Resolve(s, c, x).1.value) == if name == "" then None else Some(name)
  {
    hide After, LooseInv, Answered, Resolve, ReverseLookup, Collide;
    EmptyLoose(c);
    RunKeepsLoose(EMPTY, c, es);
    var s := After(EMPTY, c, es);
    EachAnswered(s, c, x);
    EachAnswered(s, c, y);
    AnsweredSame(s, c, x, y);
    z := AnsweredLeadsBack(s, c, x);
  }

  lemma EmptyLoose(c: Config)
    requires Valid(c)
    ensures LooseInv(EMPTY, c)
  {
  }

  lemma EachAnswered(s: State, c: Config, x: Ask)
    requires Valid(c) && LooseInv(s, c) && x in s.issued
    ensures Answered(s, c, x)
  {
  }

  lemma AnsweredSame(s: State, c: Config, x: Ask, y: Ask)
    requires Valid(c) && x in s.issued && y in s.issued && Answered(s, c, x) && Answered(s, c, y)
    ensures Resolve(s, c, x).0 == s && Resolve(s, c, x).1.Some? && Resolve(s, c, y).1.Some?
    ensures Resolve(s, c, x).1 == Resolve(s, c, y).1 <==> Collide(s, c, x, y)
  {
    hide Fake, AddressKey, PointerKey, CursorKey, PointsBack, Draw, Congruent;
    if x.family == y.family {
      SameAddressIff(x.family, BlockOf(c, x.family), s.issued[x], s.issued[y]);
    }
  }

  lemma AnsweredLeadsBack(s: State, c: Config, x: Ask) returns (z: Ask)
    requires Valid(c) && x in s.issued && Answered(s, c, x)
    ensures z in s.issued && Collide(s, c, x, z) && Resolve(s, c, x).1.Some?
    ensures var name := Trim(z.domain, c.text.blank);
            ReverseLookup(s, c, Resolve(s, c, x).1.value) == if name == "" then None else Some(name)
  {
    hide Fake, AddressKey, PointerKey, CursorKey, Draw, Congruent, Trim, Lawful;
    var ip := s.cache[AddressKey(x.family, x.domain)];
    z :| z in s.issued && Collide(s, c, x, z) && s.cache[PointerKey(ip)] == z.domain;
  }

  /** A question is answered if and only if it was before, or the next cursor gives an address; it is a
      new question exactly when it draws a cursor, and then it draws one. */
  lemma AnsweredIff(s: State, c: Config, ask: Ask)
    requires Valid(c) && Inv(s, c)
    ensures var (s', answer) := Resolve(s, c, ask);
            && (answer.Some? <==>
                  ask in s.issued || Fake(ask.family, BlockOf(c, ask.family), Cursor(s, ask.family)).Some?)
            && (ask in s.issued ==> s' == s)
            && (ask !in s.issued && answer.Some? ==> s'.issued == s.issued[ask := Cursor(s, ask.family)])
            && (ask !in s.issued ==> Cursor(s', ask.family) == (Cursor(s, ask.family) + 1) % U64)
  {
    hide Fake, AddressKey, PointerKey, CursorKey, LoadCursor;
    assert ask in s.issued ==> Recorded(s, c, ask);
  }

  /** So in a block that every cursor stays inside of, and that can be told by `InsideIffAligned` and
      `InsideIffRangeFits`, every question gets an address of the block. */
  lemma InsideIsAnswered(s: State, c: Config, ask: Ask)
    requires Valid(c) && Inv(s, c) && AllInside(ask.family, BlockOf(c, ask.family))
    ensures var (s', answer) := Resolve(s, c, ask);
            && answer.Some? && ask in s'.issued
            && Inside(ask.family, BlockOf(c, ask.family), s'.issued[ask])
            && answer.value == c.text.show(ask.family, Fake(ask.family, BlockOf(c, ask.family), s'.issued[ask]).value)
  {
    hide Fake, AddressKey, PointerKey, CursorKey, LoadCursor, Contains;
    AnsweredIff(s, c, ask);
    assert Inside(ask.family, BlockOf(c, ask.family), Cursor(s, ask.family));
    if ask in s.issued {
      assert Recorded(s, c, ask);
      assert s.issued[ask] < Cursor(s, ask.family) < U64;
      assert Inside(ask.family, BlockOf(c, ask.family), s.issued[ask]);
    }
  }

  /** An answer once given stays the same in every later run. */
  lemma {:induction false} AnswersAreStable(s: State, c: Config, es: seq<Event>, ask: Ask)
    requires Valid(c) && Inv(s, c) && Runs(s, c, es) && ask in s.issued
    ensures Resolve(After(s, c, es), c, ask).1 == Resolve(s, c, ask).1
    decreases |es|
  {
    hide Inv, Resolve, Legal, ValidBlock, Lawful, Restart;
    if es != [] {
      AnswerSurvives(s, c, es[0], ask);
      AnswersAreStable(Step(s, c, es[0]), c, es[1..], ask);
    }
  }

  lemma AnswerSurvives(s: State, c: Config, e: Event, ask: Ask)
    requires Valid(c) && Inv(s, c) && (e.ResolveEvent? ==> Legal(s, c, e.ask)) && ask in s.issued
    ensures Inv(Step(s, c, e), c)
    ensures ask in Step(s, c, e).issued && Resolve(Step(s, c, e), c, ask).1 == Resolve(s, c, ask).1
  {
    hide Inv, Fake, AddressKey, PointerKey, CursorKey, Pool, Legal;
    var s' := Step(s, c, e);
    if e.ResolveEvent? {
      ResolveKeeps(s, c, e.ask);
      if AddressKey(e.ask.family, e.ask.domain) !in s.cache {
        StillUnknown(s, c, e.ask);
      }
    } else {
      RestartKeeps(s, c);
    }
    SameRecord(s, s', c, ask);
  }

  /** The record of an answer depends only on the cursor it was made from. */
  lemma SameRecord(s: State, s': State, c: Config, ask: Ask)
    requires Valid(c) && Inv(s, c) && Inv(s', c)
    requires ask in s.issued && ask in s'.issued && s.issued[ask] == s'.issued[ask]
    ensures Resolve(s', c, ask).1 == Resolve(s, c, ask).1
  {
    assert Recorded(s, c, ask) && Recorded(s', c, ask);
  }

  // ─── The object ─────────────────────────────────────────────────────────────

  class FakeIpDns {
    const config: Config
    var cache: map<string, string>
    var ipv4Cursor: nat
    var ipv6Cursor: nat
    ghost var issued: map<Ask, nat>

    /** Opens on the cache an earlier process left. */
    constructor (config: Config, before: State)
      ensures this.config == config && Value() == Restart(before, config)
    {
      this.config, cache, issued := config, before.cache, before.issued;
      ipv4Cursor := LoadCursor(before.cache, config, V4);
      ipv6Cursor := LoadCursor(before.cache, config, V6);
    }

    ghost function Value(): State
      reads this
    {
      State(cache, ipv4Cursor, ipv6Cursor, issued)
    }

    method NextCursor(f: Family) returns (current: nat)
      modifies this`cache, this`ipv4Cursor, this`ipv6Cursor
      ensures current == Cursor(old(Value()), f)
      ensures Value() == Draw(old(Value()), config, f)
    {
      if f == V4 {
        current := ipv4Cursor;
        ipv4Cursor := (ipv4Cursor + 1) % U64;
        cache := cache[CursorKey(V4) := config.text.number(ipv4Cursor)];
      } else {
        current := ipv6Cursor;
        ipv6Cursor := (ipv6Cursor + 1) % U64;
        cache := cache[CursorKey(V6) := config.text.number(ipv6Cursor)];
      }
    }

    method ResolveInternal(ask: Ask) returns (ip: Option<string>)
      requires ValidBlock(V4, config.v4) && ValidBlock(V6, config.v6)
      modifies this
      ensures (Value(), ip) == Resolve(old(Value()), config, ask)
    {
      var key := AddressKey(ask.family, ask.domain);
      if key in cache {
        return Some(cache[key]);
      }
      var cursor := NextCursor(ask.family);
      var a := Fake(ask.family, BlockOf(config, ask.family), cursor);
      if a.None? {
        return None;
      }
      var text := config.text.show(ask.family, a.value);
      cache := cache[key := text];
      cache := cache[PointerKey(text) := ask.domain];
      issued := issued[ask := cursor];
      return Some(text);
    }
  }
}
