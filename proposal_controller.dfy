/** The proposal endpoints (server/src/controllers/proposalController.ts)
    with the database calls replaced by a map from proposal id to stored
    proposal: owner stamping, the list query and its pagination, the
    ownership-scoped lookups and the section records that generation and
    improvement write. */
module ProposalController {
  import opened Common
  import opened Protocol

  /** `AppError(message, statusCode)`. */
  datatype AppError = AppError(message: string, statusCode: int)

  const NOT_FOUND: AppError := AppError("Proposal not found", 404)
  const SECTION_NOT_FOUND: AppError := AppError("Section not found", 404)

  /** An error as it reaches a handler's `catch`: errors of other origin
      carry no status code (or a zero one). */
  datatype Thrown = Thrown(message: string, statusCode: Option<int>)

  /** The `catch` of every handler: `new AppError(error.message,
      error.statusCode || 500)`. */
  function Rethrow(e: Thrown): (r: AppError)
    ensures r.message == e.message
    ensures e.statusCode.Some? && e.statusCode.value != 0 ==> r.statusCode == e.statusCode.value
    ensures e.statusCode.None? || e.statusCode == Some(0) ==> r.statusCode == 500
  {
    if e.statusCode.Some? && e.statusCode.value != 0 then AppError(e.message, e.statusCode.value)
    else AppError(e.message, 500)
  }

  /** A 404 thrown inside a handler leaves it as the same 404. */
  lemma NotFoundSurvivesCatch()
    ensures Rethrow(Thrown(NOT_FOUND.message, Some(404))) == NOT_FOUND
    ensures Rethrow(Thrown(SECTION_NOT_FOUND.message, Some(404))) == SECTION_NOT_FOUND
  {
  }

  // parseInt and the pagination of getProposals.

  /** The white space `parseInt` skips before the number. */
  predicate IsSpace(c: char)
  {
    c as int in {0x09, 0x0A, 0x0B, 0x0C, 0x0D, 0x20, 0xA0, 0x1680, 0x2028, 0x2029, 0x202F, 0x205F, 0x3000, 0xFEFF}
    || 0x2000 <= c as int <= 0x200A
  }

  /** The value of a digit in base 10 or 16, if it is one. */
  function DigitValue(c: char, radix: int): (d: Option<int>)
    requires radix == 10 || radix == 16
    ensures d.Some? ==> 0 <= d.value < radix
  {
    if '0' <= c <= '9' then Some(c as int - '0' as int)
    else if radix == 16 && 'a' <= c <= 'f' then Some(c as int - 'a' as int + 10)
    else if radix == 16 && 'A' <= c <= 'F' then Some(c as int - 'A' as int + 10)
    else None
  }

  /** `s` with its leading white space removed. */
  function TrimStart(s: string): string
    decreases |s|
  {
    if s != [] && IsSpace(s[0]) then TrimStart(s[1..]) else s
  }

  /** `TrimStart` drops exactly a run of white space: what it keeps is a
      suffix that does not start with white space, and everything before
      it is white space. */
  lemma {:induction false} TrimStartDropsSpace(s: string)
    ensures var r := TrimStart(s);
            && |r| <= |s| && r == s[|s| - |r|..]
            && (r != [] ==> !IsSpace(r[0]))
            && forall i :: 0 <= i < |s| - |r| ==> IsSpace(s[i])
    decreases |s|
  {
    if s != [] && IsSpace(s[0]) {
      TrimStartDropsSpace(s[1..]);
      var r := TrimStart(s);
      assert s[1..][|s| - 1 - |r|..] == s[|s| - |r|..];
      forall i | 1 <= i < |s| - |r|
        ensures IsSpace(s[i])
      {
        assert s[i] == s[1..][i - 1];
      }
    }
  }

  /** The longest prefix made of digits of the radix. */
  function LeadingDigits(s: string, radix: int): string
    requires radix == 10 || radix == 16
    decreases |s|
  {
    if s != [] && DigitValue(s[0], radix).Some? then [s[0]] + LeadingDigits(s[1..], radix) else []
  }

  /** `LeadingDigits` is the longest prefix of digits: a prefix, made of
      digits, and followed by a character that is not one. */
  lemma {:induction false} LeadingDigitsLongest(s: string, radix: int)
    requires radix == 10 || radix == 16
    ensures var r := LeadingDigits(s, radix);
            && |r| <= |s| && r == s[..|r|]
            && (forall i :: 0 <= i < |r| ==> DigitValue(r[i], radix).Some?)
            && (|r| < |s| ==> DigitValue(s[|r|], radix).None?)
    decreases |s|
  {
    if s != [] && DigitValue(s[0], radix).Some? {
      LeadingDigitsLongest(s[1..], radix);
      var r := LeadingDigits(s, radix);
      var rest := LeadingDigits(s[1..], radix);
      assert r == [s[0]] + rest;
      assert s[..|r|] == [s[0]] + s[1..][..|rest|];
      forall i | 0 <= i < |r|
        ensures DigitValue(r[i], radix).Some?
      {
        if i > 0 {
          assert r[i] == rest[i - 1];
        }
      }
      if |r| < |s| {
        assert s[|r|] == s[1..][|rest|];
      }
    }
  }

  /** The number a string of digits denotes. */
  function DigitsValue(ds: string, radix: int): (n: nat)
    requires radix == 10 || radix == 16
    requires forall i :: 0 <= i < |ds| ==> DigitValue(ds[i], radix).Some?
    decreases |ds|
  {
    if ds == [] then 0
    else
      var prefix := DigitsValue(ds[..|ds| - 1], radix);
      (if radix == 10 then prefix * 10 else prefix * 16) + DigitValue(ds[|ds| - 1], radix).value
  }

  /** The unsigned part of `parseInt`: a "0x" or "0X" prefix selects
      base 16, then the longest run of digits is read; `None` when there is
      none. */
  function ParseMagnitude(u: string): (r: Option<nat>)
  {
    var hex := |u| >= 2 && u[0] == '0' && (u[1] == 'x' || u[1] == 'X');
    var radix := if hex then 16 else 10;
    var ds := LeadingDigits(if hex then u[2..] else u, radix);
    LeadingDigitsLongest(if hex then u[2..] else u, radix);
    if ds == [] then None else Some(DigitsValue(ds, radix))
  }

  /** `parseInt(s)` with no radix: leading white space skipped, an optional
      sign, then the magnitude; `None` is NaN. */
  function ParseInt(s: string): (r: Option<int>)
  {
    ParseSigned(TrimStart(s))
  }

  /** The sign and magnitude `parseInt` reads once the white space is
      skipped. */
  function ParseSigned(t: string): (r: Option<int>)
  {
    if t != [] && t[0] == '-' then Signed(ParseMagnitude(t[1..]), true)
    else if t != [] && t[0] == '+' then Signed(ParseMagnitude(t[1..]), false)
    else Signed(ParseMagnitude(t), false)
  }

  /** A magnitude with its sign; NaN stays NaN. */
  function Signed(m: Option<nat>, negative: bool): (r: Option<int>)
  {
    if m.None? then None
    else if negative then Some(-(m.value as int))
    else Some(m.value as int)
  }

  /** `String(n)` for a natural number. */
  function Decimal(n: nat): (s: string)
    ensures |s| >= 1
    ensures forall i :: 0 <= i < |s| ==> '0' <= s[i] <= '9'
    decreases n
  {
    var last := ('0' as int + n % 10) as char;
    if n < 10 then [last] else Decimal(n / 10) + [last]
  }

  /** A run of decimal digits means the number `Decimal` wrote. */
  lemma {:induction false} DecimalValue(n: nat)
    ensures DigitsValue(Decimal(n), 10) == n
    decreases n
  {
    var s := Decimal(n);
    if n >= 10 {
      DecimalValue(n / 10);
      assert s[..|s| - 1] == Decimal(n / 10);
    }
  }

  /** `parseInt` reads back every number `String` writes. */
  lemma ParseIntDecimal(n: nat)
    ensures ParseInt(Decimal(n)) == Some(n)
  {
    ParseIntOfDigits(Decimal(n));
    DecimalValue(n);
  }

  /** A plain run of decimal digits parses as the number it denotes. */
  lemma ParseIntOfDigits(s: string)
    requires s != [] && forall i :: 0 <= i < |s| ==> '0' <= s[i] <= '9'
    ensures ParseInt(s) == Some(DigitsValue(s, 10))
  {
    assert TrimStart(s) == s by {
      assert !IsSpace(s[0]);
    }
    MagnitudeOfDigits(s);
    assert ParseSigned(s) == Signed(ParseMagnitude(s), false) by {
      assert s[0] != '-' && s[0] != '+';
    }
  }

  /** The magnitude of a plain run of decimal digits is its value. */
  lemma MagnitudeOfDigits(s: string)
    requires s != [] && forall i :: 0 <= i < |s| ==> '0' <= s[i] <= '9'
    ensures ParseMagnitude(s) == Some(DigitsValue(s, 10))
  {
    assert |s| >= 2 ==> s[1] != 'x' && s[1] != 'X';
    LeadingDigitsOfDigits(s, 10);
  }

  /** A string made only of digits is its own leading run of digits. */
  lemma {:induction false} LeadingDigitsOfDigits(s: string, radix: int)
    requires radix == 10 || radix == 16
    requires forall i :: 0 <= i < |s| ==> DigitValue(s[i], radix).Some?
    ensures LeadingDigits(s, radix) == s
    decreases |s|
  {
    if s != [] {
      LeadingDigitsOfDigits(s[1..], radix);
    }
  }

  /** `parseInt(raw) || fallback`: NaN and 0 are falsy. A missing query
      parameter is `undefined`, which `parseInt` turns into NaN. */
  function IntParam(raw: Option<string>, fallback: int): (r: int)
    ensures raw.None? ==> r == fallback
    ensures raw.Some? && ParseInt(raw.value).Some? && ParseInt(raw.value).value != 0 ==> r == ParseInt(raw.value).value
    ensures raw.Some? && (ParseInt(raw.value).None? || ParseInt(raw.value) == Some(0)) ==> r == fallback
  {
    if raw.None? then fallback
    else
      var p := ParseInt(raw.value);
      if p.None? || p.value == 0 then fallback else p.value
  }

  /** A positive number in the query is taken as it is. */
  lemma IntParamReadsNumbers(n: nat, fallback: int)
    requires n >= 1
    ensures IntParam(Some(Decimal(n)), fallback) == n
  {
    ParseIntDecimal(n);
  }

  /** "0", an empty value and a value that is not a number all give the
      fallback. */
  lemma IntParamFallsBack(fallback: int)
    ensures IntParam(Some("0"), fallback) == fallback
    ensures IntParam(Some(""), fallback) == fallback
    ensures IntParam(Some("abc"), fallback) == fallback
  {
    ParseIntOfDigits("0");
    assert DigitsValue("0", 10) == 0 by {
      assert "0"[..0] == [];
    }
    assert ParseInt("0") == Some(0);
    assert ParseMagnitude("") == None;
    assert ParseInt("") == None;
    assert !IsSpace('a');
    assert TrimStart("abc") == "abc";
    assert LeadingDigits("abc", 10) == [];
    assert ParseMagnitude("abc") == None;
    assert ParseInt("abc") == None;
  }

  /** `Math.ceil(a / b)` for a non-zero divisor. */
  function CeilDiv(a: int, b: int): (q: int)
    requires b != 0
    ensures b > 0 ==> (q - 1) * b < a <= q * b
    ensures b > 0 && a >= 0 ==> q >= 0 && (q == 0 <==> a == 0)
  {
    var floor := if b > 0 then -a / b else a / -b;
    if b > 0 then
      CeilDivBounds(a, b);
      -floor
    else -floor
  }

  /** The bounds of a rounded-up quotient. */
  lemma CeilDivBounds(a: int, b: int)
    requires b > 0
    ensures var q := -((-a) / b);
            && (q - 1) * b < a <= q * b
            && (a >= 0 ==> q >= 0 && (q == 0 <==> a == 0))
  {
    var f := (-a) / b;
    var m := (-a) % b;
    assert f * b + m == -a && 0 <= m < b;
    var q := -f;
    assert q * b == -(f * b);
    assert (q - 1) * b == q * b - b;
  }

  /** Multiplying both sides by a positive number keeps the order. */
  lemma MulLe(x: int, y: int, k: int)
    requires x <= y && k > 0
    ensures x * k <= y * k
  {
  }

  /** The `pagination` object of the response, with the `skip` used for
      the query. */
  datatype Pagination = Pagination(page: int, limit: int, total: int, pages: int, skip: int)

  /** The pagination of `getProposals` for the raw `page` and `limit`
      query parameters and the count of matching proposals. */
  function Paginate(pageRaw: Option<string>, limitRaw: Option<string>, total: nat): (p: Pagination)
    ensures p.page == IntParam(pageRaw, 1) && p.limit == IntParam(limitRaw, 10) && p.total == total
    ensures p.page != 0 && p.limit != 0
    ensures p.skip == (p.page - 1) * p.limit
    ensures p.pages == CeilDiv(total, p.limit)
  {
    var page := IntParam(pageRaw, 1);
    var limit := IntParam(limitRaw, 10);
    Pagination(page, limit, total, CeilDiv(total, limit), (page - 1) * limit)
  }

  /** With no parameters the first ten proposals are asked for. */
  lemma PaginateDefaults(total: nat)
    ensures var p := Paginate(None, None, total);
            p.page == 1 && p.limit == 10 && p.skip == 0
  {
  }

  /** For a positive page size the pages cover the matching proposals
      exactly: every one of them is on a page, and the last page is not
      empty. */
  lemma PagesCoverTotal(pageRaw: Option<string>, limitRaw: Option<string>, total: nat)
    requires Paginate(pageRaw, limitRaw, total).limit > 0
    ensures var p := Paginate(pageRaw, limitRaw, total);
            && (p.pages == 0 <==> total == 0)
            && total <= p.pages * p.limit
            && (p.pages - 1) * p.limit < total
  {
    var p := Paginate(pageRaw, limitRaw, total);
    var q := CeilDiv(total, p.limit);
    assert (q - 1) * p.limit < total <= q * p.limit;
  }

  /** As written, a negative page number passes the `|| 1` fallback and
      asks the database to skip a negative number of proposals. */
  lemma NegativePageSkipsBackwards(total: nat)
    ensures Paginate(Some("-1"), None, total).skip == -20
  {
    assert !IsSpace('-');
    assert TrimStart("-1") == "-1";
    assert "-1"[1..] == "1";
    MagnitudeOfDigits("1");
    assert DigitsValue("1", 10) == 1 by {
      assert "1"[..0] == [];
    }
    assert ParseInt("-1") == Some(-1);
  }

  /** `parseInt(raw)` when it is a positive number, the fallback otherwise. */
  function PositiveIntParam(raw: Option<string>, fallback: int): (r: int)
    requires fallback >= 1
    ensures r >= 1
    ensures raw.Some? && ParseInt(raw.value).Some? && ParseInt(raw.value).value >= 1 ==> r == ParseInt(raw.value).value
  {
    if raw.Some? && ParseInt(raw.value).Some? && ParseInt(raw.value).value >= 1 then ParseInt(raw.value).value else fallback
  }

  /** The pagination with page and limit that are not positive sent back
      to their defaults. */
  function PaginateIntended(pageRaw: Option<string>, limitRaw: Option<string>, total: nat): (p: Pagination)
    ensures p.page >= 1 && p.limit >= 1 && p.skip >= 0
    ensures p.skip == (p.page - 1) * p.limit
    ensures p.pages == CeilDiv(total, p.limit)
  {
    var page := PositiveIntParam(pageRaw, 1);
    var limit := PositiveIntParam(limitRaw, 10);
    MulLe(0, page - 1, limit);
    Pagination(page, limit, total, CeilDiv(total, limit), (page - 1) * limit)
  }

  /** The intended pagination agrees with the written one wherever both
      parameters are positive numbers or absent. */
  lemma PaginateIntendedAgrees(pageRaw: Option<string>, limitRaw: Option<string>, total: nat)
    requires pageRaw.None? || (ParseInt(pageRaw.value).Some? && ParseInt(pageRaw.value).value >= 1)
    requires limitRaw.None? || (ParseInt(limitRaw.value).Some? && ParseInt(limitRaw.value).value >= 1)
    ensures PaginateIntended(pageRaw, limitRaw, total) == Paginate(pageRaw, limitRaw, total)
  {
  }

  /** The list query: always the caller's own proposals, a status only
      when one is given, a text search only when a search is given. */
  datatype ListQuery = ListQuery(userId: UserId, status: Option<string>, search: Option<string>)

  function BuildQuery(userId: UserId, status: Option<string>, search: Option<string>): (q: ListQuery)
    ensures q.userId == userId
    ensures q.status.Some? <==> status.Some? && status.value != ""
    ensures q.status.Some? ==> q.status == status
    ensures q.search.Some? <==> search.Some? && search.value != ""
    ensures q.search.Some? ==> q.search == search
  {
    ListQuery(userId,
              if status.Some? && status.value != "" then status else None,
              if search.Some? && search.value != "" then search else None)
  }

  // Stored proposals.

  /** One entry of a section's history: the content it replaced (absent
      for a section that did not exist), when and by whom. */
  datatype HistoryEntry = HistoryEntry(content: Option<string>, modifiedAt: Timestamp, modifiedBy: UserId)

  datatype SectionRecord = SectionRecord(title: string, content: string, aiGenerated: bool,
                                         lastModified: Timestamp, version: int, history: seq<HistoryEntry>)

  /** A stored proposal: its owner, its other top-level fields (their
      values as text) and its sections. */
  datatype StoredProposal = StoredProposal(userId: UserId, fields: map<string, string>, sections: map<string, SectionRecord>)

  type Store = map<ProposalId, StoredProposal>

  /** A request body: its top-level text fields and, when it has one, its
      `sections` object, which Mongoose stores as the document's sections. */
  datatype Body = Body(fields: map<string, string>, sections: Option<map<string, SectionRecord>>)

  /** The keys a body cannot write as text fields: the owner and the
      sections object. */
  const RESERVED: set<string> := {"userId", "sections"}

  /** `createProposal`: the body's fields with `userId` set to the caller,
      whatever the body said, and the body's sections if it has any. */
  function NewProposal(body: Body, caller: UserId): (p: StoredProposal)
    ensures p.userId == caller
    ensures forall k :: k in p.fields <==> k in body.fields && k !in RESERVED
    ensures forall k :: k in p.fields ==> p.fields[k] == body.fields[k]
    ensures p.sections == if body.sections.Some? then body.sections.value else map[]
  {
    StoredProposal(caller, map k | k in body.fields && k !in RESERVED :: body.fields[k],
                   if body.sections.Some? then body.sections.value else map[])
  }

  /** `findOne({ _id: id, userId: caller })`: another user's proposal is
      as missing as one that does not exist. */
  function FindOwned(store: Store, id: ProposalId, caller: UserId): (r: Result<StoredProposal, AppError>)
    ensures r.Ok? <==> id in store && store[id].userId == caller
    ensures r.Ok? ==> r.value == store[id]
    ensures r.Err? ==> r.error == NOT_FOUND
  {
    if id in store && store[id].userId == caller then Ok(store[id]) else Err(NOT_FOUND)
  }

  /** `updateProposal`: the body's top-level keys are written over the
      caller's proposal, `userId` and `sections` included; every key the
      body does not name keeps its value. */
  function UpdateOwned(store: Store, id: ProposalId, caller: UserId, body: Body): (r: Result<Store, AppError>)
    ensures FindOwned(store, id, caller).Err? ==> r == Err(NOT_FOUND)
    ensures FindOwned(store, id, caller).Ok? ==> r.Ok? && r.value.Keys == store.Keys
    ensures r.Ok? ==> forall k :: k in store && k != id ==> r.value[k] == store[k]
    ensures r.Ok? ==> r.value[id].fields.Keys == (store[id].fields.Keys + body.fields.Keys) - RESERVED
    ensures r.Ok? ==> forall k :: k in body.fields && k !in RESERVED ==> r.value[id].fields[k] == body.fields[k]
    ensures r.Ok? ==> forall k :: k in store[id].fields && k !in body.fields && k !in RESERVED ==>
                        r.value[id].fields[k] == store[id].fields[k]
    ensures r.Ok? ==> r.value[id].userId == (if "userId" in body.fields then body.fields["userId"] else caller)
    ensures r.Ok? ==> r.value[id].sections == (if body.sections.Some? then body.sections.value else store[id].sections)
  {
    var found := FindOwned(store, id, caller);
    if found.Err? then Err(found.error)
    else
      var p := found.value;
      var fields := map k | k in p.fields.Keys + body.fields.Keys && k !in RESERVED ::
                      if k in body.fields then body.fields[k] else p.fields[k];
      Ok(store[id := StoredProposal(if "userId" in body.fields then body.fields["userId"] else caller, fields,
                                    if body.sections.Some? then body.sections.value else p.sections)])
  }

  /** An update whose body names another user hands the proposal over: the
      former owner can no longer find it. */
  lemma UpdateCanChangeOwner(store: Store, id: ProposalId, caller: UserId, other: UserId, body: Body)
    requires id in store && store[id].userId == caller
    requires "userId" in body.fields && body.fields["userId"] == other && other != caller
    ensures var r := UpdateOwned(store, id, caller, body);
            r.Ok? && FindOwned(r.value, id, caller) == Err(NOT_FOUND)
  {
  }

  /** `deleteProposal`: the caller's proposal goes, nothing else. */
  function DeleteOwned(store: Store, id: ProposalId, caller: UserId): (r: Result<Store, AppError>)
    ensures FindOwned(store, id, caller).Err? ==> r == Err(NOT_FOUND)
    ensures FindOwned(store, id, caller).Ok? ==> r == Ok(store - {id})
  {
    if FindOwned(store, id, caller).Err? then Err(NOT_FOUND) else Ok(store - {id})
  }

  // Section records.

  /** The record `generateSection` writes: the new content, marked as
      generated, one version on from the old one (or from 0), with the old
      content (absent when there was none) appended to the old history. */
  function Generated(prev: Option<SectionRecord>, sectionName: string, content: string, now: Timestamp, caller: UserId): (r: SectionRecord)
    ensures r.title == sectionName && r.content == content && r.aiGenerated && r.lastModified == now
    ensures r.version == (if prev.Some? then prev.value.version else 0) + 1
    ensures prev.None? ==> r.history == [HistoryEntry(None, now, caller)]
    ensures prev.Some? ==> r.history == prev.value.history + [HistoryEntry(Some(prev.value.content), now, caller)]
  {
    var version := if prev.Some? && prev.value.version != 0 then prev.value.version else 0;
    var history := if prev.Some? then prev.value.history else [];
    var replaced := if prev.Some? then Some(prev.value.content) else None;
    SectionRecord(sectionName, content, true, now, version + 1, history + [HistoryEntry(replaced, now, caller)])
  }

  /** The record `improveSection` writes: the old record with the new
      content and time, one version on, and the old content appended to its
      history. */
  function Improved(cur: SectionRecord, content: string, now: Timestamp, caller: UserId): (r: SectionRecord)
    ensures r.title == cur.title && r.aiGenerated == cur.aiGenerated
    ensures r.content == content && r.lastModified == now && r.version == cur.version + 1
    ensures |r.history| == |cur.history| + 1 && r.history[..|cur.history|] == cur.history
    ensures r.history[|cur.history|] == HistoryEntry(Some(cur.content), now, caller)
  {
    cur.(content := content, lastModified := now, version := cur.version + 1,
         history := cur.history + [HistoryEntry(Some(cur.content), now, caller)])
  }

  /** A section's version counts the entries of its history. */
  predicate VersionCountsHistory(s: SectionRecord)
  {
    s.version == |s.history|
  }

  /** Generation and improvement both keep the version equal to the length
      of the history, so a section only ever written by them has one
      history entry per version. */
  lemma WritesKeepVersionCount(prev: Option<SectionRecord>, cur: SectionRecord, sectionName: string, content: string,
                               now: Timestamp, caller: UserId)
    requires prev.None? || VersionCountsHistory(prev.value)
    requires VersionCountsHistory(cur)
    ensures VersionCountsHistory(Generated(prev, sectionName, content, now, caller))
    ensures VersionCountsHistory(Improved(cur, content, now, caller))
  {
  }

  /** Every content a section has had: the contents its history records
      as replaced, then the current one. */
  function Contents(s: SectionRecord): seq<Option<string>>
  {
    seq(|s.history|, i requires 0 <= i < |s.history| => s.history[i].content) + [Some(s.content)]
  }

  /** Improvement loses no content: the list of contents grows by exactly
      the new one. */
  lemma ImproveExtendsContents(cur: SectionRecord, content: string, now: Timestamp, caller: UserId)
    ensures Contents(Improved(cur, content, now, caller)) == Contents(cur) + [Some(content)]
  {
    var r := Improved(cur, content, now, caller);
    assert forall i :: 0 <= i < |cur.history| ==> r.history[i] == cur.history[i];
  }

  /** Generation loses no content either: over an existing section the
      list of contents grows by the generated one; a new section starts
      from an absent content followed by the generated one. */
  lemma GenerateExtendsContents(prev: Option<SectionRecord>, sectionName: string, content: string, now: Timestamp, caller: UserId)
    ensures prev.Some? ==> Contents(Generated(prev, sectionName, content, now, caller)) == Contents(prev.value) + [Some(content)]
    ensures prev.None? ==> Contents(Generated(prev, sectionName, content, now, caller)) == [None, Some(content)]
  {
    var r := Generated(prev, sectionName, content, now, caller);
    if prev.Some? {
      assert forall i :: 0 <= i < |prev.value.history| ==> r.history[i] == prev.value.history[i];
    }
  }

  /** The loaded proposal document whose sections the two handlers assign
      in place before saving it. */
  class ProposalDoc {
    var userId: UserId
    var fields: map<string, string>
    var sections: map<string, SectionRecord>

    constructor Load(p: StoredProposal)
      ensures userId == p.userId && fields == p.fields && sections == p.sections
    {
      userId, fields, sections := p.userId, p.fields, p.sections;
    }

    /** What `save()` stores. */
    function Snapshot(): StoredProposal
      reads this
    {
      StoredProposal(userId, fields, sections)
    }

    /** `proposal.sections[sectionName] = { ... }` in `generateSection`. */
    method GenerateSection(sectionName: string, content: string, now: Timestamp, caller: UserId)
      modifies this`sections
      ensures sections == old(sections)[sectionName :=
                Generated(if sectionName in old(sections) then Some(old(sections)[sectionName]) else None,
                          sectionName, content, now, caller)]
    {
      var prev := if sectionName in sections then Some(sections[sectionName]) else None;
      sections := sections[sectionName := Generated(prev, sectionName, content, now, caller)];
    }

    /** The section check and assignment of `improveSection`. */
    method ImproveSection(sectionName: string, content: string, now: Timestamp, caller: UserId)
      returns (r: Result<SectionRecord, AppError>)
      modifies this`sections
      ensures sectionName !in old(sections) ==> r == Err(SECTION_NOT_FOUND) && sections == old(sections)
      ensures sectionName in old(sections) ==>
                && sections == old(sections)[sectionName := Improved(old(sections)[sectionName], content, now, caller)]
                && r == Ok(sections[sectionName])
    {
      if sectionName !in sections {
        return Err(SECTION_NOT_FOUND);
      }
      sections := sections[sectionName := Improved(sections[sectionName], content, now, caller)];
      r := Ok(sections[sectionName]);
    }
  }

  /** `generateSection`: the caller's proposal is looked up, the section
      record written and the proposal saved. The generated text is the AI
      service's answer, given here. */
  method GenerateSectionHandler(store: Store, id: ProposalId, caller: UserId, sectionName: string,
                                content: string, now: Timestamp)
    returns (err: Option<AppError>, after: Store)
    ensures FindOwned(store, id, caller).Err? ==> err == Some(NOT_FOUND) && after == store
    ensures FindOwned(store, id, caller).Ok? ==>
              && err.None?
              && var p := store[id];
                 var prev := if sectionName in p.sections then Some(p.sections[sectionName]) else None;
                 after == store[id := p.(sections := p.sections[sectionName := Generated(prev, sectionName, content, now, caller)])]
  {
    var found := FindOwned(store, id, caller);
    if found.Err? {
      return Some(found.error), store;
    }
    var doc := new ProposalDoc.Load(found.value);
    doc.GenerateSection(sectionName, content, now, caller);
    after := store[id := doc.Snapshot()];
    err := None;
  }

  /** `improveSection`: 404 for a missing proposal, then 404 for a missing
      section, with nothing saved; otherwise the improved record is saved
      and returned. The improved text is the AI service's answer. */
  method ImproveSectionHandler(store: Store, id: ProposalId, caller: UserId, sectionName: string,
                               content: string, now: Timestamp)
    returns (r: Result<SectionRecord, AppError>, after: Store)
    ensures FindOwned(store, id, caller).Err? ==> r == Err(NOT_FOUND) && after == store
    ensures FindOwned(store, id, caller).Ok? && sectionName !in store[id].sections ==>
              r == Err(SECTION_NOT_FOUND) && after == store
    ensures FindOwned(store, id, caller).Ok? && sectionName in store[id].sections ==>
              && var p := store[id];
                 var s := Improved(p.sections[sectionName], content, now, caller);
                 r == Ok(s) && after == store[id := p.(sections := p.sections[sectionName := s])]
  {
    var found := FindOwned(store, id, caller);
    if found.Err? {
      return Err(found.error), store;
    }
    var doc := new ProposalDoc.Load(found.value);
    r := doc.ImproveSection(sectionName, content, now, caller);
    if r.Err? {
      return r, store;
    }
    after := store[id := doc.Snapshot()];
  }
}
