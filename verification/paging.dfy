/** Account pages: the size estimate, the longest fitting prefix, and the client following pages. */
module Paging {
  import opened Base
  import opened Tables
  import opened Cbor
  import opened Fields
  import opened Operations
  import opened Desktop
  import Shell

  datatype Summary = Summary(
    id: Bytes, revision: nat, created: nat, modified: nat, service: Bytes, origin: Bytes, username: Bytes)

  /** What the types guarantee of a summary. */
  predicate Typed(a: Summary) {
    && |a.id| == 16 && a.revision <= U64_MAX && a.created <= U64_MAX && a.modified <= U64_MAX
    && IsUtf8(a.service) && IsUtf8(a.origin) && IsUtf8(a.username)
  }

  predicate InBounds(a: Summary) {
    |a.service| <= MAX_SERVICE_NAME_BYTES && |a.origin| <= MAX_ORIGIN_BYTES && |a.username| <= MAX_USERNAME_BYTES
  }

  predicate AllInBounds(accounts: seq<Summary>) { forall a :: a in accounts ==> InBounds(a) }

  predicate AllTyped(accounts: seq<Summary>) { forall a :: a in accounts ==> Typed(a) }

  // ------------------------------------------------------------------ encoding

  function SummaryPart(a: Summary): seq<Field> {
    [Arr(7), Blob(a.id), Int(a.revision), Int(a.created), Int(a.modified), Text(a.service), Text(a.origin), Text(a.username)]
  }

  function ListPart(accounts: seq<Summary>): seq<Field> {
    if accounts == [] then [] else SummaryPart(accounts[0]) + ListPart(accounts[1..])
  }

  function OffsetField(next: Option<nat>): Field { if next.Some? then Int(next.value) else Null }

  function PageFields(next: Option<nat>, accounts: seq<Summary>): seq<Field> {
    [Arr(2), OffsetField(next), Arr(|accounts|)] + ListPart(accounts)
  }

  /** The estimate for one account: 54 bytes and its three texts. */
  function Estimate(a: Summary): nat { 54 + |a.service| + |a.origin| + |a.username| }

  function EstimateAll(accounts: seq<Summary>): nat {
    if accounts == [] then 8 else EstimateAll(accounts[..|accounts| - 1]) + Estimate(accounts[|accounts| - 1])
  }

  /** When the summaries are encoded rather than refused as too large. */
  predicate Fit(accounts: seq<Summary>) {
    |accounts| <= MAX_LIST_PAGE_SIZE && AllInBounds(accounts) && EstimateAll(accounts) <= MAX_RESPONSE_BODY_BYTES
  }

  lemma SummarySize(a: Summary)
    requires Typed(a) && InBounds(a)
    ensures |Encode(SummaryPart(a))| <= Estimate(a)
  {
    var front, middle := [Arr(7), Blob(a.id), Int(a.revision)], [Int(a.created), Int(a.modified)];
    var back := [Text(a.service), Text(a.origin), Text(a.username)];
    assert SummaryPart(a) == front + middle + back;
    EncodeAppends(front, middle);
    EncodeAppends(front + middle, back);
    ThreeFields(Arr(7), Blob(a.id), Int(a.revision));
    ThreeFields(Text(a.service), Text(a.origin), Text(a.username));
    assert middle[1..] == [Int(a.modified)];
    EncodeOne(Int(a.modified));
    FieldSize(Arr(7));
    FieldSize(Blob(a.id));
    FieldSize(Int(a.revision));
    FieldSize(Int(a.created));
    FieldSize(Int(a.modified));
    FieldSize(Text(a.service));
    FieldSize(Text(a.origin));
    FieldSize(Text(a.username));
  }

  lemma {:induction false} EstimateFromFront(accounts: seq<Summary>)
    requires accounts != []
    ensures EstimateAll(accounts) == Estimate(accounts[0]) + EstimateAll(accounts[1..])
    decreases |accounts|
  {
    var n := |accounts| - 1;
    if n > 0 {
      EstimateFromFront(accounts[..n]);
      assert accounts[..n][1..] == accounts[1..][..n - 1];
    } else {
      assert accounts[1..] == [] && accounts[..0] == [];
    }
  }

  lemma {:induction false} ListSize(accounts: seq<Summary>)
    requires AllTyped(accounts) && AllInBounds(accounts)
    ensures |Encode(ListPart(accounts))| + 8 <= EstimateAll(accounts)
    decreases |accounts|
  {
    if accounts != [] {
      SummarySize(accounts[0]);
      ListSize(accounts[1..]);
      EncodeAppends(SummaryPart(accounts[0]), ListPart(accounts[1..]));
      EstimateFromFront(accounts);
    }
  }

  /** The estimate bounds the true length, so what fits is never cut off by the writer. */
  lemma EstimateBoundsLength(next: Option<nat>, accounts: seq<Summary>)
    requires AllTyped(accounts) && AllInBounds(accounts) && |accounts| <= MAX_LIST_PAGE_SIZE
    requires next.Some? ==> next.value <= U32_MAX
    ensures |Encode(PageFields(next, accounts))| <= EstimateAll(accounts)
  {
    ListSize(accounts);
    EncodeAppends([Arr(2), OffsetField(next), Arr(|accounts|)], ListPart(accounts));
    ThreeFields(Arr(2), OffsetField(next), Arr(|accounts|));
    FieldSize(Arr(2));
    FieldSize(OffsetField(next));
    FieldSize(Arr(|accounts|));
  }

  lemma {:induction false} EstimateGrows(accounts: seq<Summary>, k: nat)
    requires k <= |accounts|
    ensures EstimateAll(accounts[..k]) <= EstimateAll(accounts)
    decreases |accounts|
  {
    var n := |accounts| - 1;
    if k <= n {
      EstimateGrows(accounts[..n], k);
      assert accounts[..n][..k] == accounts[..k];
    } else {
      assert accounts[..k] == accounts;
    }
  }

  /** Fitting is monotone: a prefix of what fits, fits. */
  lemma FitMonotone(accounts: seq<Summary>, k: nat)
    requires Fit(accounts) && k <= |accounts|
    ensures Fit(accounts[..k])
  {
    EstimateGrows(accounts, k);
  }

  function EncodeSummaries(accounts: seq<Summary>, next: Option<nat>): Option<Bytes> {
    if Fit(accounts) then Some(Encode(PageFields(next, accounts))) else None
  }

  method EncodeAccountSummaries(accounts: seq<Summary>, next: Option<nat>) returns (body: Option<Bytes>)
    requires AllTyped(accounts) && (next.Some? ==> next.value <= U32_MAX)
    ensures body == EncodeSummaries(accounts, next)
  {
    if |accounts| > MAX_LIST_PAGE_SIZE { return None; }
    var maximum := 8;
    var i := 0;
    while i < |accounts|
      invariant 0 <= i <= |accounts| && maximum == EstimateAll(accounts[..i])
      invariant forall a :: a in accounts[..i] ==> InBounds(a)
    {
      var a := accounts[i];
      assert a in accounts;
      if !InBounds(a) { return None; }
      maximum := maximum + 54 + |a.service| + |a.origin| + |a.username|;
      i := i + 1;
      assert accounts[..i][..i - 1] == accounts[..i - 1] && accounts[..i][i - 1] == a;
    }
    assert accounts[..i] == accounts;
    if maximum > MAX_RESPONSE_BODY_BYTES { return None; }
    EstimateBoundsLength(next, accounts);
    var ok, bytes := WriteFields(PageFields(next, accounts), MAX_PAYLOAD_BYTES);
    return Some(bytes);
  }

  // ------------------------------------------------------------- longest prefix

  /** The longest prefix length that fits; 0 also when not even one account fits. */
  function LongestFit(views: seq<Summary>): (k: nat)
    ensures k <= |views|
  {
    if views == [] || Fit(views) then |views| else LongestFit(views[..|views| - 1])
  }

  lemma {:induction false} LongestIsLongest(views: seq<Summary>, j: nat)
    requires j <= |views|
    ensures 0 < j <= LongestFit(views) ==> Fit(views[..j])
    ensures j > LongestFit(views) ==> !Fit(views[..j])
    decreases |views|
  {
    if views != [] && !Fit(views) {
      var n := |views| - 1;
      if j <= n {
        LongestIsLongest(views[..n], j);
        assert views[..n][..j] == views[..j];
      } else {
        assert views[..j] == views;
      }
    } else if views != [] {
      FitMonotone(views, j);
    }
  }

  datatype PageOutcome = Page(body: Bytes, count: nat, next: Option<nat>) | FailedPage | InternalError

  function NextOffset(views: seq<Summary>, offset: nat, more: bool, count: nat): Option<nat> {
    if more || count < |views| then Some(offset + count) else None
  }

  /** The page for the given views: the longest prefix that fits, and where the next one starts. */
  function PageOf(views: seq<Summary>, offset: nat, more: bool): PageOutcome {
    var k := LongestFit(views);
    if views == [] then (if more then FailedPage else Page(Encode(PageFields(None, [])), 0, None))
    else if k == 0 then FailedPage
    else PageAt(views, offset, more, k)
  }

  function PageAt(views: seq<Summary>, offset: nat, more: bool, count: nat): PageOutcome
    requires count <= |views|
  {
    var next := NextOffset(views, offset, more, count);
    Page(Encode(PageFields(next, views[..count])), count, next)
  }

  /** One probe of the search: a prefix encoded with its next offset, if the offset exists. */
  method Probe(views: seq<Summary>, offset: nat, more: bool, count: nat) returns (o: PageOutcome)
    requires AllTyped(views) && offset <= U32_MAX && count <= |views|
    ensures o == InternalError ==> offset + count > U32_MAX
    ensures o != InternalError ==>
              o == if Fit(views[..count]) then PageAt(views, offset, more, count) else FailedPage
  {
    var next := None;
    if more || count < |views| {
      if offset + count > U32_MAX { return InternalError; }
      next := Some(offset + count);
    }
    var body := EncodeAccountSummaries(views[..count], next);
    return if body.Some? then Page(body.value, count, next) else FailedPage;
  }

  /** The binary search: it finds the longest fitting prefix, or meets an offset beyond 32 bits. */
  method EncodeSummaryPage(views: seq<Summary>, offset: nat, more: bool) returns (o: PageOutcome)
    requires AllTyped(views) && offset <= U32_MAX
    ensures offset + |views| <= U32_MAX ==> o == PageOf(views, offset, more)
    ensures o == InternalError || o == PageOf(views, offset, more)
  {
    if views == [] {
      if more { return FailedPage; }
      var empty := EncodeAccountSummaries(views, None);
      return Page(empty.value, 0, None);
    }
    var lower, upper, best := 1, |views|, FailedPage;
    ghost var k := LongestFit(views);
    while lower <= upper
      invariant 1 <= lower <= k + 1 && k <= upper <= |views|
      invariant best == if lower == 1 then FailedPage else PageAt(views, offset, more, lower - 1)
      decreases upper - lower
    {
      var count := lower + (upper - lower) / 2;
      LongestIsLongest(views, count);
      var probe := Probe(views, offset, more, count);
      if probe == InternalError { return InternalError; }
      if probe.Page? {
        best := probe;
        lower := count + 1;
      } else {
        upper := count - 1;
      }
    }
    return best;
  }

  /** Any non-empty list of accounts within their bounds gives a non-empty page. */
  lemma FirstAccountFits(views: seq<Summary>)
    requires views != [] && AllInBounds(views)
    ensures LongestFit(views) >= 1
  {
    var one := views[..1];
    assert one[..0] == [] && EstimateAll(one) == EstimateAll(one[..0]) + Estimate(one[0]);
    assert one[0] == views[0] && views[0] in views;
    assert Fit(one);
    LongestIsLongest(views, 1);
  }

  // ------------------------------------------------------------ following pages

  /** The store's window on its accounts, and whether more follow it. */
  function Window(all: seq<Summary>, offset: nat, limit: nat): seq<Summary> {
    if offset >= |all| then [] else all[offset..Min(offset + limit, |all|)]
  }

  /** The limits a request may ask for. */
  predicate LegalLimit(limit: nat) { 1 <= limit <= MAX_LIST_PAGE_SIZE }

  /** The page served for an offset and a limit. */
  function Serve(all: seq<Summary>, offset: nat, limit: nat): PageOutcome {
    PageOf(Window(all, offset, limit), offset, offset + limit < |all|)
  }

  /** The client's check on the page it received for an offset. */
  predicate ClientAccepts(offset: nat, count: nat, next: Option<nat>) {
    next.Some? ==> count > 0 && count <= U32_MAX - offset && next.value == offset + count
  }

  lemma WindowOf(all: seq<Summary>, offset: nat, limit: nat, k: nat)
    requires offset <= |all| && k <= |Window(all, offset, limit)|
    ensures offset + k <= |all| && Window(all, offset, limit)[..k] == all[offset..offset + k]
    ensures AllInBounds(all) ==> AllInBounds(Window(all, offset, limit))
  {
    assert forall a :: a in Window(all, offset, limit) ==> a in all;
  }

  /** The number of accounts in the page served for an offset and a limit. */
  function Served(all: seq<Summary>, offset: nat, limit: nat): nat { LongestFit(Window(all, offset, limit)) }

  lemma ServedCount(all: seq<Summary>, offset: nat, limit: nat)
    requires AllInBounds(all) && offset <= |all| && LegalLimit(limit)
    ensures Served(all, offset, limit) <= limit && offset + Served(all, offset, limit) <= |all|
    ensures offset < |all| ==> Served(all, offset, limit) > 0
    ensures Serve(all, offset, limit)
            == var count := Served(all, offset, limit);
               var next := if offset + count < |all| then Some(offset + count) else None;
               Page(Encode(PageFields(next, all[offset..offset + count])), count, next)
  {
    var views := Window(all, offset, limit);
    WindowOf(all, offset, limit, LongestFit(views));
    if views != [] { FirstAccountFits(views); }
  }

  /** Every served page is accepted, starts where it was asked to, and continues exactly after it. */
  lemma ServedPage(all: seq<Summary>, offset: nat, limit: nat)
    requires AllInBounds(all) && |all| <= U32_MAX && offset <= |all| && LegalLimit(limit)
    ensures
      var page := Serve(all, offset, limit);
      && page.Page? && offset + page.count <= |all| && ClientAccepts(offset, page.count, page.next)
      && page.body == Encode(PageFields(page.next, all[offset..offset + page.count]))
      && (page.next.Some? ==> page.count > 0 && page.next.value == offset + page.count < |all|)
      && (page.next.None? ==> offset + page.count == |all|)
      && page.count <= limit
  {
    ServedCount(all, offset, limit);
  }

  /** The page for an offset advances, and only the last one has no next offset. */
  predicate Advances(total: nat, offset: nat, page: PageOutcome) {
    && page.Page? && offset + page.count <= total && (offset < total ==> page.count > 0)
    && page.next == if offset + page.count < total then Some(offset + page.count) else None
  }

  ghost predicate AlwaysAdvances(total: nat, serve: nat -> PageOutcome) {
    forall o: nat :: o <= total ==> Advances(total, o, serve(o))
  }

  /** The accounts a client collects by following `next` from an offset. */
  ghost function Follow(all: seq<Summary>, offset: nat, serve: nat -> PageOutcome): seq<Summary>
    requires offset <= |all| && AlwaysAdvances(|all|, serve)
    decreases |all| - offset
  {
    var page := serve(offset);
    assert Advances(|all|, offset, page);
    all[offset..offset + page.count] + if page.next.Some? then Follow(all, page.next.value, serve) else []
  }

  lemma {:induction false} FollowCollects(all: seq<Summary>, offset: nat, serve: nat -> PageOutcome)
    requires offset <= |all| && AlwaysAdvances(|all|, serve)
    ensures Follow(all, offset, serve) == all[offset..]
    decreases |all| - offset
  {
    var page := serve(offset);
    assert Advances(|all|, offset, page);
    if page.next.Some? { FollowCollects(all, page.next.value, serve); }
  }

  /** The agent's pages over a fixed list, for a client that asks these limits. */
  function Server(all: seq<Summary>, limits: nat -> nat): nat -> PageOutcome {
    (o: nat) => Serve(all, o, limits(o))
  }

  lemma ServerAdvances(all: seq<Summary>, limits: nat -> nat)
    requires AllInBounds(all) && |all| <= U32_MAX && forall o :: LegalLimit(limits(o))
    ensures AlwaysAdvances(|all|, Server(all, limits))
  {
    forall o: nat | o <= |all| ensures Advances(|all|, o, Server(all, limits)(o)) {
      ServedPage(all, o, limits(o));
    }
  }

  /** Over a fixed list, following the pages from the start ends with the whole list, whatever limits are asked. */
  lemma PagingIsComplete(all: seq<Summary>, limits: nat -> nat)
    requires AllInBounds(all) && |all| <= U32_MAX && forall o :: LegalLimit(limits(o))
    ensures AlwaysAdvances(|all|, Server(all, limits)) && Follow(all, 0, Server(all, limits)) == all
  {
    ServerAdvances(all, limits);
    FollowCollects(all, 0, Server(all, limits));
  }

  /** A page the client accepts passes the check the shell's page stack relies on. */
  lemma AcceptedIsChecked(offset: nat, count: nat, list: Shell.AccountList)
    requires list.error == Shell.NoError ==> ClientAccepts(offset, count, list.nextOffset)
    ensures Shell.Checked(list, offset)
  {
  }

  // ------------------------------------------------------- the client's decoder

  const SUMMARY_WANTS := [WArr, WBlob(16), WInt, WInt, WInt, WText(256), WText(2048), WText(1024)]

  function SummaryFrom(fs: seq<Field>): Summary
    requires |fs| == 8
  {
    Summary(B(fs[1]), N(fs[2]), N(fs[3]), N(fs[4]), B(fs[5]), B(fs[6]), B(fs[7]))
  }

  lemma SummarySuits(a: Summary)
    requires Typed(a) && InBounds(a)
    ensures SuitAll(SummaryPart(a), SUMMARY_WANTS) && SummaryFrom(SummaryPart(a)) == a
  {
  }

  lemma OneAccountRead(a: Summary, more: seq<Summary>, bytes: Bytes)
    requires Typed(a) && InBounds(a) && bytes == Encode(ListPart([a] + more))
    ensures StrictAll(SUMMARY_WANTS, bytes) == Some((SummaryPart(a), Encode(ListPart(more))))
  {
    assert ([a] + more)[1..] == more;
    EncodeAppends(SummaryPart(a), ListPart(more));
    SummarySuits(a);
    StrictAllComplete(SUMMARY_WANTS, SummaryPart(a), Encode(ListPart(more)));
  }

  /** What the client asks of an account beyond its encoding: a proper identifier, and UTF-8. */
  predicate Readable(a: Summary) {
    |a.id| == 16 && NonZero(a.id) && IsUtf8(a.service) && IsUtf8(a.origin) && IsUtf8(a.username)
  }

  predicate AllNonZero(accounts: seq<Summary>) { forall a :: a in accounts ==> NonZero(a.id) }

  /** One account, and the bytes after it. */
  function OneAccount(bytes: Bytes): Option<(Summary, Bytes)> {
    var one := StrictAll(SUMMARY_WANTS, bytes);
    if one.None? || |one.value.0| != 8 || one.value.0[0] != Arr(7) || !Readable(SummaryFrom(one.value.0)) then None
    else Some((SummaryFrom(one.value.0), one.value.1))
  }

  method ReadAccount(reader: CborReader) returns (a: Option<Summary>)
    requires reader.Valid()
    modifies reader
    ensures reader.Valid() && a.Some? == OneAccount(old(reader.Rest())).Some?
    ensures a.Some? ==> OneAccount(old(reader.Rest())) == Some((a.value, reader.Rest()))
  {
    ghost var here := reader.Rest();
    var fs := ReadFields(reader, SUMMARY_WANTS);
    if fs.None? { return None; }
    StrictAllSound(SUMMARY_WANTS, here);
    if fs.value[0] != Arr(7) { return None; }
    var account := SummaryFrom(fs.value);
    return if Readable(account) then Some(account) else None;
  }

  /** A number of accounts, and the bytes after them. */
  function ReadList(count: nat, bytes: Bytes): Option<(seq<Summary>, Bytes)> {
    if count == 0 then Some(([], bytes))
    else
      var one := OneAccount(bytes);
      if one.None? then None
      else
        var more := ReadList(count - 1, one.value.1);
        if more.None? then None else Some(([one.value.0] + more.value.0, more.value.1))
  }

  lemma {:induction false} ListIsRead(all: seq<Summary>)
    requires AllTyped(all) && AllInBounds(all)
    ensures ReadList(|all|, Encode(ListPart(all))) == if AllNonZero(all) then Some((all, [])) else None
    decreases |all|
  {
    if all != [] {
      assert all == [all[0]] + all[1..];
      assert AllNonZero(all) <==> NonZero(all[0].id) && AllNonZero(all[1..]);
      OneAccountRead(all[0], all[1..], Encode(ListPart(all)));
      SummarySuits(all[0]);
      ListIsRead(all[1..]);
    }
  }

  /** Reading the accounts `done` one by one leads from `start` to `rest`. */
  ghost predicate Leads(start: Bytes, done: seq<Summary>, rest: Bytes)
    decreases |done|
  {
    if done == [] then rest == start
    else
      var one := OneAccount(start);
      one.Some? && one.value.0 == done[0] && Leads(one.value.1, done[1..], rest)
  }

  lemma {:induction false} LeadsOn(start: Bytes, done: seq<Summary>, bytes: Bytes, a: Summary, rest: Bytes)
    requires Leads(start, done, bytes) && OneAccount(bytes) == Some((a, rest))
    ensures Leads(start, done + [a], rest)
    decreases |done|
  {
    if done == [] {
      assert (done + [a])[1..] == [];
    } else {
      assert (done + [a])[1..] == done[1..] + [a];
      LeadsOn(OneAccount(start).value.1, done[1..], bytes, a, rest);
    }
  }

  lemma {:induction false} LeadsNowhere(count: nat, start: Bytes, done: seq<Summary>, bytes: Bytes)
    requires |done| < count && Leads(start, done, bytes) && OneAccount(bytes).None?
    ensures ReadList(count, start).None?
    decreases |done|
  {
    if done != [] { LeadsNowhere(count - 1, OneAccount(start).value.1, done[1..], bytes); }
  }

  lemma {:induction false} LeadsToEnd(start: Bytes, done: seq<Summary>, rest: Bytes)
    requires Leads(start, done, rest)
    ensures ReadList(|done|, start) == Some((done, rest))
    decreases |done|
  {
    if done != [] {
      LeadsToEnd(OneAccount(start).value.1, done[1..], rest);
      assert [done[0]] + done[1..] == done;
    }
  }

  /** The next account of a list, or none and then the list cannot be read. */
  method ReadNext(reader: CborReader, ghost count: nat, ghost start: Bytes, ghost done: seq<Summary>)
    returns (a: Option<Summary>)
    requires reader.Valid() && |done| < count && Leads(start, done, reader.Rest())
    modifies reader
    ensures reader.Valid() && (a.None? ==> ReadList(count, start).None?)
    ensures a.Some? ==> Leads(start, done + [a.value], reader.Rest())
  {
    ghost var here := reader.Rest();
    a := ReadAccount(reader);
    if a.None? { LeadsNowhere(count, start, done, here); } else { LeadsOn(start, done, here, a.value, reader.Rest()); }
  }

  method ReadAccounts(reader: CborReader, count: nat) returns (accounts: Option<seq<Summary>>)
    requires reader.Valid()
    modifies reader
    ensures reader.Valid() && accounts.Some? == ReadList(count, old(reader.Rest())).Some?
    ensures accounts.Some? ==> ReadList(count, old(reader.Rest())) == Some((accounts.value, reader.Rest()))
  {
    var done: seq<Summary> := [];
    ghost var start := reader.Rest();
    while |done| < count
      invariant reader.Valid() && |done| <= count && Leads(start, done, reader.Rest())
    {
      var a := ReadNext(reader, count, start, done);
      if a.None? { return None; }
      done := done + [a.value];
    }
    LeadsToEnd(start, done, reader.Rest());
    return Some(done);
  }

  /** The offset of the next page: null, or a number within 32 bits. */
  function ReadOffset(bytes: Bytes): Option<(Option<nat>, Bytes)> {
    if bytes != [] && bytes[0] == 0xF6 then Some((None, bytes[1..]))
    else
      var n := StrictAll([WInt], bytes);
      if n.None? || |n.value.0| != 1 || N(n.value.0[0]) > U32_MAX then None
      else Some((Some(N(n.value.0[0])), n.value.1))
  }

  method NextPageOffset(reader: CborReader) returns (next: Option<Option<nat>>)
    requires reader.Valid()
    modifies reader
    ensures reader.Valid() && next.Some? == ReadOffset(old(reader.Rest())).Some?
    ensures next.Some? ==> ReadOffset(old(reader.Rest())) == Some((next.value, reader.Rest()))
  {
    var absent := reader.NextIsNull();
    if absent {
      reader.SkipNull();
      return Some(None);
    }
    ghost var here := reader.Rest();
    var value := ReadFields(reader, [WInt]);
    if value.None? { return None; }
    StrictAllSound([WInt], here);
    if N(value.value[0]) > U32_MAX { return None; }
    return Some(Some(N(value.value[0])));
  }

  /** An array head, and the bytes after it. */
  function ReadCount(bytes: Bytes): Option<(nat, Bytes)> {
    var count := StrictAll([WArr], bytes);
    if count.None? || |count.value.0| != 1 || !count.value.0[0].Arr? then None
    else Some((count.value.0[0].count, count.value.1))
  }

  method ArrayCount(reader: CborReader) returns (count: Option<nat>)
    requires reader.Valid()
    modifies reader
    ensures reader.Valid() && count.Some? == ReadCount(old(reader.Rest())).Some?
    ensures count.Some? ==> ReadCount(old(reader.Rest())) == Some((count.value, reader.Rest()))
  {
    ghost var here := reader.Rest();
    var fs := ReadFields(reader, [WArr]);
    if fs.None? { return None; }
    StrictAllSound([WArr], here);
    assert Suits(fs.value[0], WArr);
    return Some(fs.value[0].count);
  }

  function ReadPage(body: Bytes): Option<(Option<nat>, seq<Summary>)> {
    var start := ReadCount(body);
    if start.None? || start.value.0 != 2 then None
    else
      var next := ReadOffset(start.value.1);
      if next.None? then None
      else
        var count := ReadCount(next.value.1);
        if count.None? || count.value.0 > MAX_LIST_PAGE_SIZE then None
        else
          var list := ReadList(count.value.0, count.value.1);
          if list.None? || list.value.1 != [] then None else Some((next.value.0, list.value.0))
  }

  method DecodeAccountPage(body: Bytes) returns (page: Option<(Option<nat>, seq<Summary>)>)
    ensures page == ReadPage(body)
  {
    var reader := new CborReader(body);
    assert body[0..] == body;
    var start := ArrayCount(reader);
    if start.None? || start.value != 2 { return None; }
    var next := NextPageOffset(reader);
    if next.None? { return None; }
    var count := ArrayCount(reader);
    if count.None? || count.value > MAX_LIST_PAGE_SIZE { return None; }
    var accounts := ReadAccounts(reader, count.value);
    if accounts.None? || reader.offset != |reader.bytes| { return None; }
    return Some((next.value, accounts.value));
  }

  lemma CountIsRead(n: nat, rest: seq<Field>)
    requires n <= U64_MAX
    ensures ReadCount(Encode([Arr(n)] + rest)) == Some((n, Encode(rest)))
  {
    EncodeAppends([Arr(n)], rest);
    StrictAllComplete([WArr], [Arr(n)], Encode(rest));
  }

  lemma OffsetIsRead(next: Option<nat>, rest: seq<Field>)
    requires next.Some? ==> next.value <= U32_MAX
    ensures ReadOffset(Encode([OffsetField(next)] + rest)) == Some((next, Encode(rest)))
  {
    EncodeAppends([OffsetField(next)], rest);
    EncodeOne(OffsetField(next));
    NullOrNumber(next, Encode(rest));
    if next.Some? { StrictAllComplete([WInt], [Int(next.value)], Encode(rest)); }
  }

  /** The client reads back the very page the agent encoded, unless some identifier is all zero. */
  lemma ClientReadsPage(next: Option<nat>, all: seq<Summary>)
    requires AllTyped(all) && AllInBounds(all) && |all| <= MAX_LIST_PAGE_SIZE
    requires next.Some? ==> next.value <= U32_MAX
    ensures ReadPage(Encode(PageFields(next, all))) == if AllNonZero(all) then Some((next, all)) else None
  {
    var last := [Arr(|all|)] + ListPart(all);
    var middle := [OffsetField(next)] + last;
    assert PageFields(next, all) == [Arr(2)] + middle;
    CountIsRead(2, middle);
    OffsetIsRead(next, last);
    CountIsRead(|all|, ListPart(all));
    ListIsRead(all);
  }

  lemma SuitedSummary(fs: seq<Field>)
    requires SuitAll(fs, SUMMARY_WANTS) && fs[0] == Arr(7) && Readable(SummaryFrom(fs))
    ensures SummaryPart(SummaryFrom(fs)) == fs && Typed(SummaryFrom(fs)) && InBounds(SummaryFrom(fs))
  {
    assert Suits(fs[1], WBlob(16)) && Suits(fs[2], WInt) && Suits(fs[3], WInt) && Suits(fs[4], WInt);
    assert Suits(fs[5], WText(256)) && Suits(fs[6], WText(2048)) && Suits(fs[7], WText(1024));
  }

  lemma OneAccountSound(bytes: Bytes, a: Summary, rest: Bytes)
    requires OneAccount(bytes) == Some((a, rest))
    ensures bytes == Encode(SummaryPart(a)) + rest && Typed(a) && InBounds(a) && NonZero(a.id)
  {
    StrictAllSound(SUMMARY_WANTS, bytes);
    SuitedSummary(StrictAll(SUMMARY_WANTS, bytes).value.0);
  }

  predicate ListOk(all: seq<Summary>) { AllTyped(all) && AllInBounds(all) && AllNonZero(all) }

  lemma GluedParts(part: seq<Field>, tail: seq<Field>, rest: Bytes)
    ensures Encode(part + tail) + rest == Encode(part) + (Encode(tail) + rest)
  {
    EncodeAppends(part, tail);
  }

  lemma ListStep(a: Summary, more: seq<Summary>)
    ensures ListPart([a] + more) == SummaryPart(a) + ListPart(more)
  {
    assert ([a] + more)[1..] == more;
  }

  lemma ListOkMore(a: Summary, more: seq<Summary>)
    requires Typed(a) && InBounds(a) && NonZero(a.id) && ListOk(more)
    ensures ListOk([a] + more)
  {
  }

  lemma OneMoreSound(a: Summary, more: seq<Summary>, tail: Bytes, rest: Bytes)
    requires Typed(a) && InBounds(a) && NonZero(a.id) && ListOk(more) && tail == Encode(ListPart(more)) + rest
    ensures ListOk([a] + more) && Encode(SummaryPart(a)) + tail == Encode(ListPart([a] + more)) + rest
  {
    ListOkMore(a, more);
    ListStep(a, more);
    GluedParts(SummaryPart(a), ListPart(more), rest);
  }

  lemma {:induction false} ReadListSound(count: nat, bytes: Bytes, all: seq<Summary>, rest: Bytes)
    requires ReadList(count, bytes) == Some((all, rest))
    ensures |all| == count && bytes == Encode(ListPart(all)) + rest && ListOk(all)
  {
    if count > 0 {
      var one := OneAccount(bytes).value;
      var more := ReadList(count - 1, one.1).value.0;
      OneAccountSound(bytes, one.0, one.1);
      ReadListSound(count - 1, one.1, more, rest);
      OneMoreSound(one.0, more, one.1, rest);
    } else {
      assert Encode([]) + bytes == bytes;
    }
  }

  lemma ReadCountSound(bytes: Bytes)
    requires ReadCount(bytes).Some?
    ensures
      var (n, rest) := ReadCount(bytes).value;
      bytes == Encode([Arr(n)]) + rest
  {
    StrictAllSound([WArr], bytes);
    assert StrictAll([WArr], bytes).value.0 == [Arr(ReadCount(bytes).value.0)];
  }

  lemma ReadOffsetSound(bytes: Bytes)
    requires ReadOffset(bytes).Some?
    ensures
      var (next, rest) := ReadOffset(bytes).value;
      bytes == Encode([OffsetField(next)]) + rest && (next.Some? ==> next.value <= U32_MAX)
  {
    var (next, rest) := ReadOffset(bytes).value;
    EncodeOne(OffsetField(next));
    if next.None? {
      assert bytes == [0xF6] + rest;
    } else {
      StrictAllSound([WInt], bytes);
      var fs := StrictAll([WInt], bytes).value.0;
      assert Suits(fs[0], WInt);
      assert fs == [Int(next.value)];
    }
  }

  /** What the agent may put on a page that the client will show. */
  predicate PageOk(next: Option<nat>, all: seq<Summary>) {
    |all| <= MAX_LIST_PAGE_SIZE && (next.Some? ==> next.value <= U32_MAX) && ListOk(all)
  }

  lemma AcceptedPageIsEncoded(body: Bytes)
    requires ReadPage(body).Some?
    ensures
      var (next, all) := ReadPage(body).value;
      PageOk(next, all) && body == Encode(PageFields(next, all))
  {
    var (next, all) := ReadPage(body).value;
    var after2 := ReadCount(body).value.1;
    var afterNext := ReadOffset(after2).value.1;
    var afterCount := ReadCount(afterNext).value.1;
    ReadCountSound(body);
    ReadOffsetSound(after2);
    ReadCountSound(afterNext);
    ReadListSound(ReadCount(afterNext).value.0, afterCount, all, []);
    assert Encode(ListPart(all)) + [] == Encode(ListPart(all));
    var last := [Arr(|all|)] + ListPart(all);
    EncodeAppends([Arr(|all|)], ListPart(all));
    EncodeAppends([OffsetField(next)], last);
    EncodeAppends([Arr(2)], [OffsetField(next)] + last);
    assert PageFields(next, all) == [Arr(2)] + ([OffsetField(next)] + last);
  }

  /**
   * The client accepts exactly the encodings of pages of at most 100 accounts within their bounds
   * whose texts are UTF-8 and whose identifiers are 16 bytes, not all zero, and reads those accounts.
   */
  lemma ClientAcceptsExactly(body: Bytes, next: Option<nat>, all: seq<Summary>)
    ensures ReadPage(body) == Some((next, all)) <==> PageOk(next, all) && body == Encode(PageFields(next, all))
  {
    if ReadPage(body) == Some((next, all)) { AcceptedPageIsEncoded(body); }
    if PageOk(next, all) && body == Encode(PageFields(next, all)) { ClientReadsPage(next, all); }
  }

  lemma NullOrNumber(next: Option<nat>, rest: Bytes)
    requires next.Some? ==> next.value <= U32_MAX
    ensures
      var bytes := EncodeField(OffsetField(next)) + rest;
      && bytes != [] && (bytes[0] == 0xF6 <==> next.None?)
      && (next.None? ==> bytes[1..] == rest)
  {
  }
}
