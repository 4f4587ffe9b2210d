/** The collaborative section editor of the client
    (client/src/components/ProposalEditor.tsx): how its view of a section
    reacts to the server's events, what it sends for a local edit, and the
    colour hash of remote cursors. */
module Editor {
  import opened Common
  import opened Protocol
  import Realtime

  /** A remote user's cursor as the editor keeps it. */
  datatype Cursor = Cursor(userId: UserId, user: Identity, position: Position)

  /** The editor's state: the section text, the active-user list as the
      server last sent it (user ids), the remote cursors and the comments
      received, in arrival order. */
  datatype View = View(content: string, activeUsers: seq<UserId>, cursors: seq<Cursor>, comments: seq<Event>)

  /** The view a freshly mounted editor starts from. */
  function Initial(initialContent: string): (v: View)
    ensures v.content == initialContent && v.activeUsers == [] && v.cursors == [] && v.comments == []
  {
    View(initialContent, [], [], [])
  }

  /** Every user has at most one cursor. */
  predicate OneCursorPerUser(cs: seq<Cursor>)
  {
    forall i, j :: 0 <= i < j < |cs| ==> cs[i].userId != cs[j].userId
  }

  /** The cursors of every user but `userId`, in their order. */
  function CursorsWithout(cs: seq<Cursor>, userId: UserId): (r: seq<Cursor>)
    ensures forall c :: c in r <==> c in cs && c.userId != userId
    ensures IsSubsequence(r, cs)
    ensures OneCursorPerUser(cs) ==> OneCursorPerUser(r)
  {
    FilterIsSubsequence((c: Cursor) => c.userId != userId, cs);
    FilterKeepsOneCursorPerUser((c: Cursor) => c.userId != userId, cs);
    Filter((c: Cursor) => c.userId != userId, cs)
  }

  /** Filtering cursors never gives a user a second cursor. */
  lemma {:induction false} FilterKeepsOneCursorPerUser(p: Cursor -> bool, cs: seq<Cursor>)
    ensures OneCursorPerUser(cs) ==> OneCursorPerUser(Filter(p, cs))
    decreases |cs|
  {
    if cs != [] && OneCursorPerUser(cs) {
      var rest := Filter(p, cs[1..]);
      assert OneCursorPerUser(cs[1..]);
      FilterKeepsOneCursorPerUser(p, cs[1..]);
      assert forall c :: c in rest ==> c in cs[1..];
      forall c | c in cs[1..]
        ensures c.userId != cs[0].userId
      {
        var k :| 0 <= k < |cs[1..]| && cs[1..][k] == c;
        assert cs[k + 1] == c;
      }
    }
  }

  /** `user-joined`: the active-user list is replaced by the event's. */
  function OnUserJoined(v: View, e: Event): (r: View)
    requires e.UserJoined?
    ensures r.activeUsers == e.activeUsers
    ensures r.content == v.content && r.cursors == v.cursors && r.comments == v.comments
  {
    v.(activeUsers := e.activeUsers)
  }

  /** `user-left`: the active-user list is replaced by the event's and every
      cursor of the leaving user goes; the others keep their order. */
  function OnUserLeft(v: View, e: Event): (r: View)
    requires e.UserLeft?
    ensures r.activeUsers == e.activeUsers
    ensures forall c :: c in r.cursors <==> c in v.cursors && c.userId != e.userId
    ensures IsSubsequence(r.cursors, v.cursors)
    ensures r.content == v.content && r.comments == v.comments
  {
    v.(activeUsers := e.activeUsers, cursors := CursorsWithout(v.cursors, e.userId))
  }

  /** `section-updated`: the text becomes the event's, whatever section it
      names (the last write wins). */
  function OnSectionUpdated(v: View, e: Event): (r: View)
    requires e.SectionUpdated?
    ensures r.content == e.content
    ensures r.activeUsers == v.activeUsers && r.cursors == v.cursors && r.comments == v.comments
  {
    v.(content := e.content)
  }

  /** `cursor-moved`: the mover's old cursors are dropped and the new one is
      put last, so the mover has exactly one cursor, at the event's
      position, and everyone else's stay as they were, in order. */
  function OnCursorMoved(v: View, e: Event): (r: View)
    requires e.CursorMoved?
    ensures |r.cursors| >= 1 && r.cursors[|r.cursors| - 1] == Cursor(e.userId, e.user, e.position)
    ensures forall i :: 0 <= i < |r.cursors| - 1 ==> r.cursors[i].userId != e.userId
    ensures forall c :: c in r.cursors[..|r.cursors| - 1] <==> c in v.cursors && c.userId != e.userId
    ensures IsSubsequence(r.cursors[..|r.cursors| - 1], v.cursors)
    ensures OneCursorPerUser(v.cursors) ==> OneCursorPerUser(r.cursors)
    ensures r.content == v.content && r.activeUsers == v.activeUsers && r.comments == v.comments
  {
    var others := CursorsWithout(v.cursors, e.userId);
    var cs := others + [Cursor(e.userId, e.user, e.position)];
    assert cs[..|cs| - 1] == others;
    assert forall i :: 0 <= i < |others| ==> others[i] in others;
    v.(cursors := cs)
  }

  /** `comment-added`: the event is appended to the comments. */
  function OnCommentAdded(v: View, e: Event): (r: View)
    requires e.CommentAdded?
    ensures |r.comments| == |v.comments| + 1
    ensures r.comments[..|v.comments|] == v.comments && r.comments[|v.comments|] == e
    ensures r.content == v.content && r.activeUsers == v.activeUsers && r.cursors == v.cursors
  {
    v.(comments := v.comments + [e])
  }

  /** A local edit: the text becomes the new text and a `section-update`
      for this editor's proposal and section is sent with it. */
  function HandleContentChange(v: View, proposalId: ProposalId, sectionName: string, newContent: string): (r: (View, SectionUpdate))
    ensures r.0.content == newContent
    ensures r.0.activeUsers == v.activeUsers && r.0.cursors == v.cursors && r.0.comments == v.comments
    ensures r.1.proposalId == proposalId && r.1.sectionName == sectionName && r.1.content == newContent
    ensures r.1.cursorPosition.None? && r.1.userId.None? && r.1.user.None?
  {
    (v.(content := newContent), SectionUpdate(proposalId, sectionName, newContent, None, None, None))
  }

  /** A local cursor move sends a `cursor-move` for this editor's section. */
  function HandleCursorMove(proposalId: ProposalId, sectionName: string, position: Position): (m: CursorMove)
    ensures m.proposalId == proposalId && m.sectionName == sectionName && m.position == position
    ensures m.userId.None? && m.user.None?
  {
    CursorMove(proposalId, sectionName, position, None, None)
  }

  /** A local comment sends an `add-comment` for this editor's section. */
  function HandleAddComment(proposalId: ProposalId, sectionName: string, comment: string, range: Option<Range>): (m: AddComment)
    ensures m.proposalId == proposalId && m.sectionName == sectionName && m.comment == comment && m.range == range
    ensures m.userId.None? && m.user.None? && m.timestamp.None?
  {
    AddComment(proposalId, sectionName, comment, range, None, None, None)
  }

  /** An edit made in one editor and relayed by the server puts the same
      text in every peer editor, attributed to the editor's own user. */
  lemma EditReachesPeers(v: View, peer: View, sender: Identity, proposalId: ProposalId, sectionName: string, newContent: string)
    ensures var (mine, msg) := HandleContentChange(v, proposalId, sectionName, newContent);
            var e := Realtime.SectionUpdatedEvent(sender, msg);
            && e.userId == sender.id && e.user == sender
            && OnSectionUpdated(peer, e).content == mine.content
  {
  }

  /** A cursor move relayed by the server lands in the peer's view as the
      mover's only cursor, under the mover's own id. */
  lemma CursorMoveReachesPeers(peer: View, sender: Identity, proposalId: ProposalId, sectionName: string, position: Position)
    ensures var e := Realtime.CursorMovedEvent(sender, HandleCursorMove(proposalId, sectionName, position));
            var cs := OnCursorMoved(peer, e).cursors;
            && cs[|cs| - 1] == Cursor(sender.id, sender, position)
            && forall i :: 0 <= i < |cs| - 1 ==> cs[i].userId != sender.id
  {
  }

  // The cursor colour hash.

  const TWO_31: int := 0x8000_0000
  const TWO_32: int := 0x1_0000_0000

  /** ECMAScript ToInt32 on an integral number: wrap into the signed 32-bit
      range. */
  function ToInt32(x: int): (r: int)
    ensures -TWO_31 <= r < TWO_31
    ensures (x - r) % TWO_32 == 0
    ensures -TWO_31 <= x < TWO_31 ==> r == x
  {
    var m := x % TWO_32;
    if m >= TWO_31 then m - TWO_32 else m
  }

  /** `h << 5`: ToInt32 of the operand, shifted within 32 bits. */
  function ShiftLeft5(h: int): (r: int)
    ensures -TWO_31 <= r < TWO_31
    ensures (r - ToInt32(h) * 32) % TWO_32 == 0
  {
    ToInt32(ToInt32(h) * 32)
  }

  /** One step of the loop: `code + ((hash << 5) - hash)`. The sum itself is
      not wrapped. */
  function HashStep(h: int, c: char): int
  {
    c as int + (ShiftLeft5(h) - h)
  }

  /** The loop's `hash` after every character of `s`. */
  function HashFold(s: string): int
    decreases |s|
  {
    if s == [] then 0 else HashStep(HashFold(s[..|s| - 1]), s[|s| - 1])
  }

  function Abs(x: int): (r: int)
    ensures r >= 0 && (r == x || r == -x)
  {
    if x < 0 then -x else x
  }

  /** The largest character code plus the largest value `h << 5` can take
      in magnitude: the most one step can move the hash. */
  const STEP_BOUND: int := TWO_31 + 0x11_0000

  /** One step moves the hash by at most `STEP_BOUND`. */
  lemma StepBound(h: int, c: char)
    ensures Abs(HashStep(h, c)) <= Abs(h) + STEP_BOUND
  {
    var sh := ShiftLeft5(h);
    assert -TWO_31 <= sh < TWO_31;
    assert 0 <= c as int < 0x11_0000;
  }

  /** Scaling a bound by a larger count gives a larger bound. */
  lemma MulMonotone(a: int, b: int, k: int)
    requires 0 <= a <= b && 0 <= k
    ensures a * k <= b * k
  {
  }

  /** The hash grows by at most `STEP_BOUND` per character, so for every
      string shorter than four million characters it stays below 2^53 in
      magnitude, where JavaScript numbers hold integers exactly: for those
      strings the integer model is the program's arithmetic. */
  lemma {:induction false} HashFoldBound(s: string)
    ensures Abs(HashFold(s)) <= |s| * STEP_BOUND
    ensures |s| < 4_000_000 ==> Abs(HashFold(s)) < 0x20_0000_0000_0000
    decreases |s|
  {
    if s != [] {
      var front := s[..|s| - 1];
      HashFoldBound(front);
      StepBound(HashFold(front), s[|s| - 1]);
      assert |s| * STEP_BOUND == |front| * STEP_BOUND + STEP_BOUND;
    }
    if |s| < 4_000_000 {
      MulMonotone(|s|, 4_000_000, STEP_BOUND);
    }
  }

  /** `hashString`: the `for` loop over the characters, then the absolute
      value. */
  method HashString(str: string) returns (hash: int)
    ensures hash == Abs(HashFold(str))
    ensures hash >= 0
    ensures str == [] ==> hash == 0
  {
    var h := 0;
    for i := 0 to |str|
      invariant h == HashFold(str[..i])
    {
      assert str[..i + 1][..i] == str[..i];
      h := str[i] as int + (ShiftLeft5(h) - h);
    }
    assert str[..|str|] == str;
    hash := Abs(h);
  }

  /** The hue of a remote cursor, `hashString(userId) % 360`: always a
      valid hue, and the same for the same user. */
  function CursorHue(userId: UserId): (hue: int)
    ensures 0 <= hue < 360
  {
    Abs(HashFold(userId)) % 360
  }
}
