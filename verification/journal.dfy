/**
  The interaction journal (`user_data`): an append-only list of completed
  guidance exchanges, and the sidebar history that lists it newest first with
  fixed-length snippets.
 */
module Journal {
  import opened Wrappers
  import opened Text

  /** The four paths a seeker can choose, in the order the select box offers them. */
  datatype GuidancePath = FindHelp | SeekPurpose | ReflectWithin | DiscoverPeace

  /** The label the select box shows, which is also what the journal stores. */
  function Label(p: GuidancePath): string
  {
    match p
    case FindHelp => "Find Help"
    case SeekPurpose => "Seek Purpose"
    case ReflectWithin => "Reflect Within"
    case DiscoverPeace => "Discover Peace"
  }

  /** Different paths carry different labels, so a stored label identifies its path. */
  lemma LabelInjective(p: GuidancePath, q: GuidancePath)
    ensures Label(p) == Label(q) <==> p == q
  {
  }

  /** One completed exchange, as appended to `user_data`. */
  datatype Entry = Entry(
    faith: string,
    path: GuidancePath,
    trouble: string,
    response: string,
    timestamp: string)

  /** Character limits of the history snippets and of the date in a card's title. */
  const ConcernLimit: nat := 150
  const GuidanceLimit: nat := 300
  const DateLength: nat := 10

  /** The marker printed after every snippet, whether or not anything was cut. */
  const Ellipsis: string := "..."

  /** `text[:limit] + "..."`: a prefix of at most `limit` characters, always followed by the marker. */
  function Snippet(text: string, limit: nat): (r: string)
    ensures |r| == (if |text| <= limit then |text| else limit) + |Ellipsis|
    ensures r[..|r| - |Ellipsis|] <= text
    ensures r[|r| - |Ellipsis|..] == Ellipsis
  {
    Take(text, limit) + Ellipsis
  }

  /**
    Two texts show the same snippet exactly when their first `limit`
    characters agree: the marker neither hides nor adds any distinction.
   */
  lemma SnippetDeterminesPrefix(a: string, b: string, limit: nat)
    ensures Snippet(a, limit) == Snippet(b, limit) <==> Take(a, limit) == Take(b, limit)
  {
    if Snippet(a, limit) == Snippet(b, limit) {
      var n := |Snippet(a, limit)| - |Ellipsis|;
      assert Take(a, limit) == Snippet(a, limit)[..n];
      assert Take(b, limit) == Snippet(b, limit)[..n];
    }
  }

  /**
    Text no longer than the limit is kept whole, yet the marker is still added;
    longer text is cut to exactly `limit` characters.
   */
  lemma SnippetShortAndLong(text: string, limit: nat)
    ensures |text| <= limit ==> Snippet(text, limit) == text + Ellipsis
    ensures |text| > limit ==> Snippet(text, limit) == text[..limit] + Ellipsis
  {
  }

  /** A 200-character concern shows as its first 150 characters plus the marker; a 100-character one shows whole plus the marker. */
  lemma ConcernSnippetExamples(long: string, short: string)
    requires |long| == 200 && |short| == 100
    ensures |Snippet(long, ConcernLimit)| == 153 && Snippet(long, ConcernLimit)[..150] == long[..150]
    ensures Snippet(short, ConcernLimit) == short + "..."
  {
  }

  /** One expander of the history sidebar. */
  datatype Card = Card(
    number: nat,
    title: string,
    faith: string,
    path: string,
    concern: string,
    guidance: string,
    receivedAt: string)

  /** The card for `e` shown at 1-based position `number`. */
  function CardFor(number: nat, e: Entry): (c: Card)
    ensures c.number == number && c.faith == e.faith && c.receivedAt == e.timestamp
    ensures c.path == Label(e.path)
    ensures |c.concern| == (if |e.trouble| <= ConcernLimit then |e.trouble| else ConcernLimit) + 3
    ensures |c.guidance| == (if |e.response| <= GuidanceLimit then |e.response| else GuidanceLimit) + 3
    ensures 3 <= |c.concern| <= ConcernLimit + 3 && c.concern[..|c.concern| - 3] <= e.trouble
    ensures 3 <= |c.guidance| <= GuidanceLimit + 3 && c.guidance[..|c.guidance| - 3] <= e.response
    ensures c.concern[|c.concern| - 3..] == c.guidance[|c.guidance| - 3..] == Ellipsis
    ensures exists date ::
      && date <= e.timestamp
      && |date| == (if |e.timestamp| <= DateLength then |e.timestamp| else DateLength)
      && c.title == "\U{1F4DD} " + Label(e.path) + " - " + date
  {
    Card(number,
      "\U{1F4DD} " + Label(e.path) + " - " + Take(e.timestamp, DateLength),
      e.faith,
      Label(e.path),
      Snippet(e.trouble, ConcernLimit),
      Snippet(e.response, GuidanceLimit),
      e.timestamp)
  }

  /** The sidebar history: a welcome line for an empty journal, else the total and the cards. */
  datatype History = Welcome | Listing(total: nat, cards: seq<Card>)

  /** `reversed(s)`. */
  function Reverse<T>(s: seq<T>): (r: seq<T>)
    ensures |r| == |s|
    ensures forall i :: 0 <= i < |s| ==> r[i] == s[|s| - 1 - i]
  {
    seq(|s|, i requires 0 <= i < |s| => s[|s| - 1 - i])
  }

  /** Reversing twice gives the original order back. */
  lemma ReverseInvolutive<T>(s: seq<T>)
    ensures Reverse(Reverse(s)) == s
  {
  }

  /**
    `show_user_history`: for a non-empty journal, one card per entry, newest
    first, numbered from 1, with the total equal to the journal's length.
    The journal is a value, so listing it cannot change it.
   */
  method ShowHistory(journal: seq<Entry>) returns (h: History)
    ensures journal == [] <==> h.Welcome?
    ensures h.Listing? ==> h.total == |journal| && |h.cards| == |journal|
    ensures h.Listing? ==> forall i :: 0 <= i < |journal| ==>
      h.cards[i] == CardFor(i + 1, journal[|journal| - 1 - i])
  {
    if journal == [] {
      return Welcome;
    }
    var newestFirst := Reverse(journal);
    var cards: seq<Card> := [];
    var idx := 0;
    while idx < |newestFirst|
      invariant idx <= |newestFirst|
      invariant |cards| == idx
      invariant forall i :: 0 <= i < idx ==> cards[i] == CardFor(i + 1, journal[|journal| - 1 - i])
    {
      cards := cards + [CardFor(idx + 1, newestFirst[idx])];
      idx := idx + 1;
    }
    return Listing(|journal|, cards);
  }

  /** The cards read back oldest first are the journal's entries in stored order. */
  lemma HistoryIsReverseOfJournal(journal: seq<Entry>, cards: seq<Card>)
    requires |cards| == |journal|
    requires forall i :: 0 <= i < |journal| ==> cards[i] == CardFor(i + 1, journal[|journal| - 1 - i])
    ensures forall k :: 0 <= k < |journal| ==> Reverse(cards)[k] == CardFor(|journal| - k, journal[k])
  {
    forall k | 0 <= k < |journal|
      ensures Reverse(cards)[k] == CardFor(|journal| - k, journal[k])
    {
      assert Reverse(cards)[k] == cards[|journal| - 1 - k];
    }
  }
}
