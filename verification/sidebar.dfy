/**
 * The sidebar (src/components/Layout/Sidebar.tsx): the conversation list that moves a
 * conversation to the top when a message arrives, the user search filter, the split into
 * agents and real users, and the avatar initials.
 */
module Sidebar {
  import opened Common
  import opened Wire

  /** A user entry as the sidebar receives it from the user listing. */
  datatype SidebarUser = SidebarUser(
    id: UserId,
    name: string,
    email: string,
    avatar: Option<string>,
    isOnline: bool,
    isAgent: bool,
    personality: Option<string>)

  /** The preview line shown under a conversation. */
  datatype LastMessage = LastMessage(content: string, createdAt: Time)

  datatype ConversationItem = ConversationItem(id: ConversationId, otherParticipant: SidebarUser, lastMessage: Option<LastMessage>)

  const ImagePreview: string := "📷 Image"
  const PlainPreview: string := "Message"

  /** The preview text: the content when it is not blank, else an image marker, else a generic word. */
  function PreviewText(content: string, hasImage: bool): string {
    if Trim(content) != "" then content
    else if hasImage then ImagePreview
    else PlainPreview
  }

  /**
   * The preview is never blank: content made only of white space falls back to the image
   * marker or the generic word, and content with any visible character is shown as sent.
   */
  lemma PreviewNeverBlank(content: string, hasImage: bool)
    ensures Trim(PreviewText(content, hasImage)) != ""
    ensures !AllSpace(content) ==> PreviewText(content, hasImage) == content
  {
    TrimEmptyIff(content);
    FallbacksNotBlank();
    TrimEmptyIff(PreviewText(content, hasImage));
  }

  lemma FallbacksNotBlank()
    ensures !AllSpace(ImagePreview) && !AllSpace(PlainPreview)
  {
    assert ImagePreview[2] == 'I';
    assert PlainPreview[0] == 'M';
  }

  /** `conversations.findIndex(c => c.id === conversationId)`; an absent id matches nothing. */
  function FindIndex(convs: seq<ConversationItem>, c: Option<ConversationId>): (r: Option<nat>)
    ensures r.None? <==> (c.None? || forall k :: 0 <= k < |convs| ==> convs[k].id != c.value)
    ensures r.Some? ==>
      r.value < |convs| && convs[r.value].id == c.value && forall k :: 0 <= k < r.value ==> convs[k].id != c.value
    decreases |convs|
  {
    if c.None? || convs == [] then None
    else if convs[0].id == c.value then Some(0)
    else
      var rest := FindIndex(convs[1..], c);
      assert forall k :: 1 <= k < |convs| ==> convs[k] == convs[1..][k - 1];
      if rest.None? then None else Some(rest.value + 1)
  }

  /** The list after `splice(index, 1)` and `unshift(updated)`. */
  function MovedToFront(s: seq<ConversationItem>, i: nat, x: ConversationItem): seq<ConversationItem>
    requires i < |s|
  {
    [x] + s[..i] + s[i + 1..]
  }

  /**
   * Moving to the front keeps the length, puts the updated entry first, keeps every other
   * entry in its relative order, and replaces exactly one entry.
   */
  lemma MovedToFrontShape(s: seq<ConversationItem>, i: nat, x: ConversationItem)
    requires i < |s|
    ensures var r := MovedToFront(s, i, x);
      && |r| == |s| && r[0] == x
      && (forall j :: 0 <= j < i ==> r[j + 1] == s[j])
      && (forall j :: i < j < |s| ==> r[j] == s[j])
      && multiset(r) == multiset(s) - multiset{s[i]} + multiset{x}
  {
    var r := MovedToFront(s, i, x);
    assert s == s[..i] + [s[i]] + s[i + 1..];
    assert multiset(s) == multiset(s[..i]) + multiset{s[i]} + multiset(s[i + 1..]);
    assert multiset(r) == multiset{x} + multiset(s[..i]) + multiset(s[i + 1..]);
  }

  /**
   * A second message in the same conversation finds it at the top and only replaces its
   * preview: the rest of the list is as after the first move.
   */
  lemma MovedTwice(s: seq<ConversationItem>, i: nat, x: ConversationItem, y: ConversationItem)
    requires i < |s| && |s| > 0
    ensures FindIndex(MovedToFront(s, i, x), Some(x.id)) == Some(0)
    ensures MovedToFront(MovedToFront(s, i, x), 0, y) == MovedToFront(s, i, y)
  {
    var r := MovedToFront(s, i, x);
    assert r[1..] == s[..i] + s[i + 1..];
  }

  /** A list that agrees with the moved list element by element is the moved list. */
  lemma MovedToFrontByElements(s: seq<ConversationItem>, i: nat, x: ConversationItem, r: seq<ConversationItem>)
    requires i < |s| && |r| == |s| && r[0] == x
    requires forall k :: 0 < k <= i ==> r[k] == s[k - 1]
    requires forall k :: i < k < |s| ==> r[k] == s[k]
    ensures r == MovedToFront(s, i, x)
  {
    MovedToFrontShape(s, i, x);
    var m := MovedToFront(s, i, x);
    forall k | 0 <= k < |s| ensures r[k] == m[k] {
      if 0 < k <= i {
        assert m[(k - 1) + 1] == s[k - 1];
      }
    }
  }

  /**
   * The copy-splice-unshift of the handler on an array: copy the list, shift the entries
   * before `i` one place to the right over the old entry, and write the updated entry first.
   */
  method MoveToFront(s: seq<ConversationItem>, i: nat, x: ConversationItem) returns (r: seq<ConversationItem>)
    requires i < |s|
    ensures r == MovedToFront(s, i, x)
  {
    var a := new ConversationItem[|s|](k requires 0 <= k < |s| => s[k]);
    var j := i;
    while j > 0
      invariant 0 <= j <= i
      invariant forall k :: 0 <= k <= j ==> a[k] == s[k]
      invariant forall k :: j < k <= i ==> a[k] == s[k - 1]
      invariant forall k :: i < k < a.Length ==> a[k] == s[k]
    {
      a[j] := a[j - 1];
      j := j - 1;
    }
    a[0] := x;
    r := a[..];
    MovedToFrontByElements(s, i, x, r);
  }

  // ------------------------------------------------------------- user search

  /** `arr.filter(p)`. */
  function Keep<T(!new)>(s: seq<T>, p: T -> bool): (r: seq<T>)
    ensures forall x :: x in r <==> x in s && p(x)
    ensures |r| <= |s|
    decreases |s|
  {
    if s == [] then []
    else
      assert s == [s[0]] + s[1..];
      (if p(s[0]) then [s[0]] else []) + Keep(s[1..], p)
  }

  /** Filtering distributes over concatenation: it keeps the original order. */
  lemma {:induction false} KeepAppend<T(!new)>(a: seq<T>, b: seq<T>, p: T -> bool)
    ensures Keep(a + b, p) == Keep(a, p) + Keep(b, p)
    decreases |a|
  {
    if a == [] {
      assert a + b == b;
    } else {
      assert (a + b)[1..] == a[1..] + b;
      KeepAppend(a[1..], b, p);
    }
  }

  /** A filter and its negation split a list without loss. */
  lemma {:induction false} KeepPartition<T(!new)>(s: seq<T>, p: T -> bool, q: T -> bool)
    requires forall x :: q(x) == !p(x)
    ensures multiset(Keep(s, p)) + multiset(Keep(s, q)) == multiset(s)
    decreases |s|
  {
    if s != [] {
      var t := s[1..];
      KeepPartition(t, p, q);
      assert s == [s[0]] + t;
      assert multiset(s) == multiset{s[0]} + multiset(t);
      if p(s[0]) {
        assert Keep(s, p) == [s[0]] + Keep(t, p);
        assert multiset(Keep(s, p)) == multiset{s[0]} + multiset(Keep(t, p));
        assert Keep(s, q) == Keep(t, q);
      } else {
        assert Keep(s, q) == [s[0]] + Keep(t, q);
        assert multiset(Keep(s, q)) == multiset{s[0]} + multiset(Keep(t, q));
        assert Keep(s, p) == Keep(t, p);
      }
    }
  }

  /** Filters that agree on every element keep the same elements. */
  lemma {:induction false} KeepAgrees<T(!new)>(s: seq<T>, p: T -> bool, q: T -> bool)
    requires forall x :: x in s ==> p(x) == q(x)
    ensures Keep(s, p) == Keep(s, q)
    decreases |s|
  {
    if s != [] {
      KeepAgrees(s[1..], p, q);
    }
  }

  /** The search test: the query occurs, ignoring case, in the name or in the email. */
  predicate MatchesQuery(u: SidebarUser, query: string) {
    Contains(ToLower(u.name), ToLower(query)) || Contains(ToLower(u.email), ToLower(query))
  }

  function FilteredUsers(users: seq<SidebarUser>, query: string): (r: seq<SidebarUser>)
    ensures forall x :: x in r <==> x in users && MatchesQuery(x, query)
  {
    Keep(users, u => MatchesQuery(u, query))
  }

  /** An empty query keeps every user, in order. */
  lemma {:induction false} EmptyQueryKeepsAll(users: seq<SidebarUser>)
    ensures FilteredUsers(users, "") == users
    decreases |users|
  {
    if users != [] {
      assert OccursAt(ToLower(users[0].name), "", 0);
      EmptyQueryKeepsAll(users[1..]);
      assert users == [users[0]] + users[1..];
    }
  }

  /** The search ignores letter case in the query. */
  lemma QueryCaseInsensitive(users: seq<SidebarUser>, q: string, q': string)
    requires ToLower(q) == ToLower(q')
    ensures FilteredUsers(users, q) == FilteredUsers(users, q')
  {
    KeepAgrees(users, u => MatchesQuery(u, q), u => MatchesQuery(u, q'));
  }

  function AgentsOf(f: seq<SidebarUser>): seq<SidebarUser> {
    Keep(f, (u: SidebarUser) => u.isAgent)
  }

  function RealUsersOf(f: seq<SidebarUser>): seq<SidebarUser> {
    Keep(f, (u: SidebarUser) => !u.isAgent)
  }

  /** The two sections split the filtered users by `isAgent`: together they hold each user once. */
  lemma SectionsPartition(f: seq<SidebarUser>)
    ensures multiset(AgentsOf(f)) + multiset(RealUsersOf(f)) == multiset(f)
    ensures forall u :: u in AgentsOf(f) ==> u.isAgent
    ensures forall u :: u in RealUsersOf(f) ==> !u.isAgent
  {
    KeepPartition(f, (u: SidebarUser) => u.isAgent, (u: SidebarUser) => !u.isAgent);
  }

  // ----------------------------------------------------------------- initials

  /** `s.split(' ')`: always at least one piece; consecutive spaces give empty pieces. */
  function Split(s: string): (r: seq<string>)
    ensures |r| >= 1
    decreases |s|
  {
    if s == [] then [""]
    else if s[0] == ' ' then [""] + Split(s[1..])
    else
      var rest := Split(s[1..]);
      [[s[0]] + rest[0]] + rest[1..]
  }

  /** `.map(n => n[0]).join('')`: an empty piece yields `undefined`, which `join` writes as nothing. */
  function Heads(pieces: seq<string>): string
    decreases |pieces|
  {
    if pieces == [] then ""
    else (if pieces[0] == "" then "" else [pieces[0][0]]) + Heads(pieces[1..])
  }

  /**
   * The letters of `s` that begin a word: each non-space character that comes first or right
   * after a space, read left to right. `atStart` says whether the character before `s` was a
   * space (or there was none).
   */
  function WordStarts(s: string, atStart: bool): (r: string)
    ensures forall k :: 0 <= k < |r| ==> r[k] != ' '
    decreases |s|
  {
    if s == [] then ""
    else if s[0] == ' ' then WordStarts(s[1..], true)
    else (if atStart then [s[0]] else "") + WordStarts(s[1..], false)
  }

  /** The first letter of each word of `name`. */
  function WordInitials(name: string): string {
    WordStarts(name, true)
  }

  /**
   * `getInitials`: the upper-cased first letters of the first two words of the name (fewer
   * when the name has fewer words), so at most two characters with no lower-case letter.
   */
  function GetInitials(name: string): (r: string)
    ensures |r| == (if |WordInitials(name)| < 2 then |WordInitials(name)| else 2)
    ensures forall k :: 0 <= k < |r| ==> r[k] == UpperChar(WordInitials(name)[k])
    ensures |r| <= 2 && IsUpper(r)
  {
    HeadsAreWordStarts(name);
    var all := ToUpper(Heads(Split(name)));
    if |all| <= 2 then all else all[..2]
  }

  /**
   * Splitting on ' ' and taking the first character of each non-empty piece gives exactly the
   * word-initial letters; the pieces after the first give those after the first character.
   */
  lemma {:induction false} HeadsAreWordStarts(s: string)
    ensures Heads(Split(s)) == WordStarts(s, true)
    ensures Heads(Split(s)[1..]) == WordStarts(s, false)
    decreases |s|
  {
    if s == [] {
    } else if s[0] == ' ' {
      HeadsAreWordStarts(s[1..]);
      assert Split(s)[1..] == Split(s[1..]);
    } else {
      HeadsAreWordStarts(s[1..]);
      var rest := Split(s[1..]);
      assert Split(s)[1..] == rest[1..];
    }
  }

  /** A word without spaces contributes its first letter exactly when it opens a word. */
  lemma {:induction false} WordStartsOfWord(w: string, rest: string, atStart: bool)
    requires forall k :: 0 <= k < |w| ==> w[k] != ' '
    ensures WordStarts(w + rest, atStart)
         == (if atStart && w != [] then [w[0]] else "") + WordStarts(rest, atStart && w == [])
    decreases |w|
  {
    if w == [] {
      assert w + rest == rest;
    } else {
      assert (w + rest)[1..] == w[1..] + rest;
      WordStartsOfWord(w[1..], rest, false);
    }
  }

  /** A piece of text without spaces splits into itself. */
  lemma {:induction false} SplitWord(w: string)
    requires forall k :: 0 <= k < |w| ==> w[k] != ' '
    ensures Split(w) == [w]
    decreases |w|
  {
    if w != [] {
      SplitWord(w[1..]);
      assert [w[0]] + w[1..] == w;
    }
  }

  /** A word followed by a space splits off as the first piece. */
  lemma {:induction false} SplitAfterWord(w: string, rest: string)
    requires forall k :: 0 <= k < |w| ==> w[k] != ' '
    ensures Split(w + " " + rest) == [w] + Split(rest)
    decreases |w|
  {
    if w == [] {
      assert w + " " + rest == [' '] + rest;
      assert (w + " " + rest)[1..] == rest;
    } else {
      assert (w + " " + rest)[1..] == w[1..] + " " + rest;
      SplitAfterWord(w[1..], rest);
      assert [w[0]] + w[1..] == w;
    }
  }

  /** "Ada Lovelace" gives "AL": the upper-cased first letters of the first two words. */
  lemma InitialsOfTwoWords(first: string, last: string)
    requires first != [] && last != []
    requires forall k :: 0 <= k < |first| ==> first[k] != ' '
    requires forall k :: 0 <= k < |last| ==> last[k] != ' '
    ensures GetInitials(first + " " + last) == [UpperChar(first[0]), UpperChar(last[0])]
  {
    SplitAfterWord(first, last);
    SplitWord(last);
    assert [first, last][1..] == [last];
    assert Heads([last]) == [last[0]];
    assert Heads([first, last]) == [first[0], last[0]];
  }

  /** "Grace" gives "G": a one-word name gives its upper-cased first letter. */
  lemma InitialsOfOneWord(w: string)
    requires w != []
    requires forall k :: 0 <= k < |w| ==> w[k] != ' '
    ensures GetInitials(w) == [UpperChar(w[0])]
  {
    WordStartsOfWord(w, "", true);
    assert w + "" == w;
  }

  /**
   * "Ada King Lovelace" gives "AK": with more words after the second, still only the first
   * letters of the first two words are kept.
   */
  lemma InitialsOfLongName(first: string, second: string, rest: string)
    requires first != [] && second != []
    requires forall k :: 0 <= k < |first| ==> first[k] != ' '
    requires forall k :: 0 <= k < |second| ==> second[k] != ' '
    ensures GetInitials(first + " " + second + " " + rest) == [UpperChar(first[0]), UpperChar(second[0])]
  {
    var tail := " " + rest;
    var afterFirst := " " + second + tail;
    assert first + " " + second + " " + rest == first + afterFirst;
    WordStartsOfWord(first, afterFirst, true);
    assert afterFirst == " " + (second + tail);
    assert afterFirst[1..] == second + tail;
    WordStartsOfWord(second, tail, true);
    assert WordStarts(tail, false) == WordStarts(rest, true) by {
      assert tail[1..] == rest;
    }
    var w := WordInitials(first + " " + second + " " + rest);
    assert w == [first[0], second[0]] + WordStarts(rest, true);
    assert w[0] == first[0] && w[1] == second[0];
  }

  // ------------------------------------------------------------ component state

  /** The component's state: the user and conversation lists and the search box. */
  class SidebarView {
    var users: seq<SidebarUser>
    var conversations: seq<ConversationItem>
    var searchQuery: string

    constructor ()
      ensures users == [] && conversations == [] && searchQuery == ""
    {
      users, conversations, searchQuery := [], [], "";
    }

    /** `fetchUsersAndConversations`: each list is replaced only when its request succeeded. */
    method Loaded(usersReply: Option<seq<SidebarUser>>, conversationsReply: Option<seq<ConversationItem>>)
      modifies this`users, this`conversations
      ensures users == if usersReply.Some? then usersReply.value else old(users)
      ensures conversations == if conversationsReply.Some? then conversationsReply.value else old(conversations)
    {
      if usersReply.Some? {
        users := usersReply.value;
      }
      if conversationsReply.Some? {
        conversations := conversationsReply.value;
      }
    }

    /**
     * `handleMessageUpdate` for `message:new` and `message:sent`. A conversation not in the
     * list (always the case for `message:sent`, which names none) asks for a refetch and
     * changes nothing; otherwise only that conversation's preview changes and it moves to
     * the top.
     */
    method OnMessageUpdate(ev: ServerEvent) returns (refetch: bool)
      requires ev.MessageNew? || ev.MessageSent?
      modifies this`conversations
      ensures var idx := FindIndex(old(conversations), if ev.MessageNew? then Some(ev.conversationId) else None);
        && (refetch <==> idx.None?)
        && (idx.None? ==> conversations == old(conversations))
        && (idx.Some? ==>
              conversations == MovedToFront(old(conversations), idx.value,
                old(conversations)[idx.value].(lastMessage := Some(LastMessage(
                  PreviewText(ev.message.content, ev.message.image.Some?), ev.message.createdAt)))))
      ensures ev.MessageSent? ==> refetch
    {
      var idx := FindIndex(conversations, if ev.MessageNew? then Some(ev.conversationId) else None);
      if idx.None? {
        return true;
      }
      var i := idx.value;
      var preview := LastMessage(PreviewText(ev.message.content, ev.message.image.Some?), ev.message.createdAt);
      conversations := MoveToFront(conversations, i, conversations[i].(lastMessage := Some(preview)));
      refetch := false;
    }

    function Filtered(): seq<SidebarUser>
      reads this
    {
      FilteredUsers(users, searchQuery)
    }

    function Agents(): seq<SidebarUser>
      reads this
    {
      AgentsOf(Filtered())
    }

    function RealUsers(): seq<SidebarUser>
      reads this
    {
      RealUsersOf(Filtered())
    }
  }
}
