/**
 * The chat history of the front end (src/lib/chat-history.ts) on the loaded
 * list: loading sorts the conversations newest first, saving replaces or
 * appends, deleting filters by id, and a new conversation's title is its
 * first six words. The stored text and the JSON parser are parameters; a
 * parse result of `None` stands for text that does not parse as an array
 * (the error is caught). What would be written back is returned.
 */
module ChatHistory {
  import opened Wrappers
  import opened Text
  import opened Records

  /** Most recently updated first. */
  predicate NewestFirst(cs: seq<Conversation>) {
    forall i, j :: 0 <= i < j < |cs| ==> cs[i].updatedAt >= cs[j].updatedAt
  }

  /**
   * One insertion step of the stable sort: the conversation goes in front of
   * the first one updated no later than it.
   */
  function Insert(c: Conversation, sorted: seq<Conversation>): (r: seq<Conversation>)
    requires NewestFirst(sorted)
    ensures NewestFirst(r)
    ensures multiset(r) == multiset(sorted) + multiset{c}
    ensures forall k :: 0 <= k < |r| ==> r[k] == c || r[k] in sorted
    decreases |sorted|
  {
    if sorted == [] || c.updatedAt >= sorted[0].updatedAt then
      [c] + sorted
    else
      var rest := Insert(c, sorted[1..]);
      BehindHead(c, sorted, rest);
      [sorted[0]] + rest
  }

  /**
   * The head of a newest-first list, followed by the insertion into its tail
   * of a conversation updated before the head, is newest first and holds the
   * list's conversations and that one.
   */
  lemma BehindHead(c: Conversation, sorted: seq<Conversation>, rest: seq<Conversation>)
    requires NewestFirst(sorted) && sorted != [] && c.updatedAt < sorted[0].updatedAt
    requires NewestFirst(rest)
    requires multiset(rest) == multiset(sorted[1..]) + multiset{c}
    requires forall k :: 0 <= k < |rest| ==> rest[k] == c || rest[k] in sorted[1..]
    ensures NewestFirst([sorted[0]] + rest)
    ensures multiset([sorted[0]] + rest) == multiset(sorted) + multiset{c}
    ensures forall k :: 0 <= k < |[sorted[0]] + rest| ==> ([sorted[0]] + rest)[k] == c || ([sorted[0]] + rest)[k] in sorted
  {
    var r := [sorted[0]] + rest;
    assert sorted == [sorted[0]] + sorted[1..];
    forall k | 0 <= k < |rest| ensures sorted[0].updatedAt >= rest[k].updatedAt {
      if rest[k] != c {
        var m :| 0 <= m < |sorted[1..]| && sorted[1..][m] == rest[k];
        assert rest[k] == sorted[m + 1];
      }
    }
    forall i, j | 0 <= i < j < |r| ensures r[i].updatedAt >= r[j].updatedAt {
      assert r[j] == rest[j - 1];
      if i > 0 {
        assert r[i] == rest[i - 1];
      }
    }
    forall k | 0 <= k < |r| ensures r[k] == c || r[k] in sorted {
      if k > 0 {
        assert r[k] == rest[k - 1];
      }
    }
  }

  /**
   * `conversations.sort((a, b) => b.updatedAt - a.updatedAt)`: a stable sort,
   * newest first, of the same conversations.
   */
  function SortByRecent(cs: seq<Conversation>): (r: seq<Conversation>)
    ensures NewestFirst(r)
    ensures multiset(r) == multiset(cs)
    decreases |cs|
  {
    if cs == [] then []
    else
      assert cs == [cs[0]] + cs[1..];
      Insert(cs[0], SortByRecent(cs[1..]))
  }

  /** A list already newest first comes out of the sort unchanged: equal timestamps keep their order. */
  lemma {:induction false} SortKeepsSorted(cs: seq<Conversation>)
    requires NewestFirst(cs)
    ensures SortByRecent(cs) == cs
    decreases |cs|
  {
    if cs != [] {
      SortKeepsSorted(cs[1..]);
      assert cs == [cs[0]] + cs[1..];
    }
  }

  /**
   * `loadChatHistory`: nothing stored or text that does not parse gives an
   * empty history; otherwise the stored conversations, newest first.
   */
  function LoadChatHistory(stored: Option<string>, parse: string -> Option<seq<Conversation>>): (r: seq<Conversation>)
    ensures stored.None? || stored.value == "" || parse(stored.value).None? ==> r == []
    ensures stored.Some? && stored.value != "" && parse(stored.value).Some? ==>
      NewestFirst(r) && multiset(r) == multiset(parse(stored.value).value)
  {
    if stored.None? || stored.value == "" then []
    else
      match parse(stored.value)
      case None => []
      case Some(conversations) => SortByRecent(conversations)
  }

  /**
   * `saveConversation`: nothing is written when the stored text does not
   * parse; otherwise the stored list (empty when nothing is stored) with the
   * conversation replacing the one with its id, or pushed at the end.
   */
  method SaveConversation(stored: Option<string>, parse: string -> Option<seq<Conversation>>, conversation: Conversation)
    returns (written: Option<seq<Conversation>>)
    ensures written.None? <==> stored.Some? && stored.value != "" && parse(stored.value).None?
    ensures written.Some? ==>
      var before := if stored.None? || stored.value == "" then [] else parse(stored.value).value;
      && |before| <= |written.value| <= |before| + 1
      && (forall j :: 0 <= j < |before| && before[j].id != conversation.id ==> written.value[j] == before[j])
      && Find(written.value, ConversationId, conversation.id) == Some(conversation)
      && (UniqueKeys(before, ConversationId) ==> UniqueKeys(written.value, ConversationId))
      && written.value == Upsert(before, conversation, ConversationId)
  {
    var conversations: seq<Conversation> := [];
    if stored.Some? && stored.value != "" {
      var parsed := parse(stored.value);
      if parsed.None? {
        return None;
      }
      conversations := parsed.value;
    }
    var saved := Put(conversations, conversation, ConversationId);
    return Some(saved);
  }

  /** `getConversation`: the first stored conversation with the id, if the history loads. */
  function GetConversation(stored: Option<string>, parse: string -> Option<seq<Conversation>>, id: string)
    : (r: Option<Conversation>)
    ensures r.Some? <==> stored.Some? && stored.value != "" && parse(stored.value).Some?
                         && exists j :: 0 <= j < |parse(stored.value).value| && parse(stored.value).value[j].id == id
    ensures r.Some? ==> r.value.id == id && r.value in parse(stored.value).value
    ensures r.Some? ==>
      var conversations := parse(stored.value).value;
      r.value == conversations[FindIndex(conversations, ConversationId, id)]
  {
    if stored.None? || stored.value == "" then None
    else
      match parse(stored.value)
      case None => None
      case Some(conversations) => Find(conversations, ConversationId, id)
  }

  /**
   * `deleteConversation`: something is written (and `true` returned) exactly
   * when the history loads and holds the id; what is written is the history
   * without every conversation with that id, the others in order.
   */
  function DeleteConversation(stored: Option<string>, parse: string -> Option<seq<Conversation>>, conversationId: string)
    : (written: Option<seq<Conversation>>)
    ensures written.Some? <==> stored.Some? && stored.value != "" && parse(stored.value).Some?
                               && exists j :: 0 <= j < |parse(stored.value).value|
                                                && parse(stored.value).value[j].id == conversationId
    ensures written.Some? ==>
      && |written.value| < |parse(stored.value).value|
      && (forall j :: 0 <= j < |written.value| ==> written.value[j].id != conversationId)
      && (forall j :: 0 <= j < |parse(stored.value).value| && parse(stored.value).value[j].id != conversationId ==>
            parse(stored.value).value[j] in written.value)
    ensures written.Some? ==> written.value == Without(parse(stored.value).value, ConversationId, conversationId)
  {
    if stored.None? || stored.value == "" then None
    else
      match parse(stored.value)
      case None => None
      case Some(conversations) =>
        var filtered := Without(conversations, ConversationId, conversationId);
        WithoutSameLength(conversations, ConversationId, conversationId);
        if |filtered| == |conversations| then None else Some(filtered)
  }

  /** A join of the first `n` pieces followed by the rest is the join of all of them. */
  lemma {:induction false} JoinSplitAt(pieces: seq<string>, n: nat, sep: char)
    requires 1 <= n < |pieces|
    ensures Join(pieces, sep) == Join(pieces[..n], sep) + [sep] + Join(pieces[n..], sep)
    decreases n
  {
    if n > 1 {
      JoinSplitAt(pieces[1..], n - 1, sep);
      assert pieces[1..][..n - 1] == pieces[..n][1..];
      assert pieces[1..][n - 1..] == pieces[n..];
    }
  }

  /** The number of words a title keeps. */
  const TitleWords: nat := 6

  /**
   * `generateConversationTitle`: the trimmed message when it has at most six
   * space-separated words; otherwise its first six words (the text up to the
   * sixth space) followed by `...`.
   */
  function GenerateConversationTitle(userMessage: string): (r: string)
    ensures var t := Trim(userMessage);
      |Split(t, ' ')| <= TitleWords ==> r == t
    ensures var t := Trim(userMessage);
      |Split(t, ' ')| > TitleWords ==>
        |r| >= 3 && r[|r| - 3..] == "..." &&
        var head := r[..|r| - 3];
        && |head| < |t| && head == t[..|head|] && t[|head|] == ' '
        && Split(head, ' ') == Split(t, ' ')[..TitleWords]
  {
    var t := Trim(userMessage);
    var words := Split(t, ' ');
    JoinSplit(t, ' ');
    if |words| > TitleWords then
      var head := Join(words[..TitleWords], ' ');
      JoinSplitAt(words, TitleWords, ' ');
      SplitJoin(words[..TitleWords], ' ');
      var r := head + "...";
      assert r[..|r| - 3] == head;
      r
    else
      assert words[..|words|] == words;
      Join(words[..|words|], ' ')
  }
}
