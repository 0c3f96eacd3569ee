/** The history page's list: every saved conversation, or only those whose
    rating equals the star button selected. Reading the list never changes
    the history (everything here is a function of `savedChats`). */
module HistoryPage {
  import opened Records

  /** `filterRating`: 'All', or the number of one of the star buttons.
      The buttons store the number itself, so `parseInt` gives it back. */
  datatype RatingFilter = All | Stars(n: int)

  /** `chat.rating === parseInt(filterRating)`: strict equality, so a
      record with no rating never matches. */
  predicate Matches(chat: ChatRecord, n: int) {
    chat.rating == Some(n)
  }

  /** `savedChats.filter(...)` for a numeric filter. */
  function KeepRating(chats: seq<ChatRecord>, n: int): (r: seq<ChatRecord>)
    ensures |r| <= |chats|
    ensures forall i :: 0 <= i < |r| ==> Matches(r[i], n)
  {
    if chats == [] then []
    else (if Matches(chats[0], n) then [chats[0]] else []) + KeepRating(chats[1..], n)
  }

  /** `filteredChats`. */
  function FilteredChats(savedChats: seq<ChatRecord>, filterRating: RatingFilter): (r: seq<ChatRecord>)
    ensures filterRating.Stars? ==> forall i :: 0 <= i < |r| ==> r[i].rating == Some(filterRating.n)
    ensures |r| <= |savedChats|
  {
    match filterRating
    case All => savedChats
    case Stars(n) => KeepRating(savedChats, n)
  }

  /** `a` is `b` with some elements left out, the rest in their order. */
  predicate Subsequence(a: seq<ChatRecord>, b: seq<ChatRecord>)
    decreases |b|
  {
    if a == [] then true
    else if b == [] then false
    else if a[0] == b[0] then Subsequence(a[1..], b[1..])
    else Subsequence(a, b[1..])
  }

  /** 'All' shows the whole history, newest first, unchanged. */
  lemma FilterAllIsIdentity(savedChats: seq<ChatRecord>)
    ensures FilteredChats(savedChats, All) == savedChats
  {
  }

  /** The filtered list keeps the history's order. */
  lemma {:induction false} KeepRatingIsSubsequence(chats: seq<ChatRecord>, n: int)
    ensures Subsequence(KeepRating(chats, n), chats)
  {
    if chats != [] {
      var rest := KeepRating(chats[1..], n);
      KeepRatingIsSubsequence(chats[1..], n);
      if Matches(chats[0], n) {
        assert KeepRating(chats, n) == [chats[0]] + rest;
        assert ([chats[0]] + rest)[1..] == rest;
      } else {
        assert KeepRating(chats, n) == rest;
        if rest != [] {
          assert Matches(rest[0], n);
        }
      }
    }
  }

  /** The filtered list holds each matching record exactly as often as the
      history does, and nothing else. */
  lemma {:induction false} KeepRatingCounts(chats: seq<ChatRecord>, n: int)
    ensures forall c :: multiset(KeepRating(chats, n))[c] == if Matches(c, n) then multiset(chats)[c] else 0
  {
    if chats != [] {
      KeepRatingCounts(chats[1..], n);
      assert chats == [chats[0]] + chats[1..];
      var head := if Matches(chats[0], n) then [chats[0]] else [];
      assert multiset(KeepRating(chats, n)) == multiset(head) + multiset(KeepRating(chats[1..], n));
      assert multiset(chats) == multiset([chats[0]]) + multiset(chats[1..]);
    }
  }

  /** A numeric filter returns exactly the matching records, in history
      order: each one it returns matches, each matching record is returned,
      and the order is the history's. */
  lemma FilterStarsExact(savedChats: seq<ChatRecord>, n: int)
    ensures forall c :: c in FilteredChats(savedChats, Stars(n)) <==> c in savedChats && Matches(c, n)
    ensures Subsequence(FilteredChats(savedChats, Stars(n)), savedChats)
  {
    KeepRatingCounts(savedChats, n);
    KeepRatingIsSubsequence(savedChats, n);
    forall c ensures c in KeepRating(savedChats, n) <==> c in savedChats && Matches(c, n) {
      assert c in KeepRating(savedChats, n) <==> multiset(KeepRating(savedChats, n))[c] > 0;
      assert c in savedChats <==> multiset(savedChats)[c] > 0;
    }
  }

  /** Nothing matching gives the empty list ("No history found."). */
  lemma NoMatchIsEmpty(savedChats: seq<ChatRecord>, n: int)
    requires forall i :: 0 <= i < |savedChats| ==> !Matches(savedChats[i], n)
    ensures FilteredChats(savedChats, Stars(n)) == []
  {
    var r := FilteredChats(savedChats, Stars(n));
    FilterStarsExact(savedChats, n);
    if r != [] {
      assert false;
    }
  }

  /** A conversation saved without clicking a star (rating 0) or loaded
      without a rating is shown under 'All' only. */
  lemma UnratedShownOnlyUnderAll(savedChats: seq<ChatRecord>, chat: ChatRecord, n: int)
    requires chat.rating == Some(0) || chat.rating == None
    requires 1 <= n <= 5
    ensures chat !in FilteredChats(savedChats, Stars(n))
    ensures chat in savedChats ==> chat in FilteredChats(savedChats, All)
  {
    FilterStarsExact(savedChats, n);
  }

  /** Adding a conversation to the front of the history puts it at the front
      of every view it matches and leaves the rest of each view as it was. */
  lemma FilterAfterAddChat(chat: ChatRecord, savedChats: seq<ChatRecord>, filterRating: RatingFilter)
    ensures FilteredChats([chat] + savedChats, filterRating)
            == (if filterRating.All? || Matches(chat, filterRating.n) then [chat] else [])
               + FilteredChats(savedChats, filterRating)
  {
    assert ([chat] + savedChats)[1..] == savedChats;
  }

  /** Filtering a filtered list again changes nothing. */
  lemma {:induction false} FilterIdempotent(savedChats: seq<ChatRecord>, filterRating: RatingFilter)
    ensures FilteredChats(FilteredChats(savedChats, filterRating), filterRating)
            == FilteredChats(savedChats, filterRating)
  {
    if filterRating.Stars? {
      KeepRatingFixed(KeepRating(savedChats, filterRating.n), filterRating.n);
    }
  }

  /** A list whose records all match is its own filter. */
  lemma {:induction false} KeepRatingFixed(chats: seq<ChatRecord>, n: int)
    requires forall i :: 0 <= i < |chats| ==> Matches(chats[i], n)
    ensures KeepRating(chats, n) == chats
  {
    if chats != [] {
      KeepRatingFixed(chats[1..], n);
      assert [chats[0]] + chats[1..] == chats;
    }
  }
}
