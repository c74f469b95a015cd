/** The watchlist ledger: a list of instrument ids that a single toggle action
    edits, removing the id when it is present and appending it otherwise. */
module Watchlist {
  import opened Seqs

  /** The toggle-watchlist updater. */
  function ToggleWatchlist(watchlist: seq<string>, id: string): (r: seq<string>)
    ensures id in watchlist ==> id !in r && IsSubsequence(r, watchlist)
    ensures id in watchlist ==> forall x :: x != id ==> multiset(r)[x] == multiset(watchlist)[x]
    ensures id !in watchlist ==> r == watchlist + [id]
    ensures forall x :: x in r <==> (x in watchlist && x != id) || (x == id && id !in watchlist)
  {
    if id in watchlist then Filter(x => x != id, watchlist) else watchlist + [id]
  }

  /** Toggling keeps a duplicate-free watchlist duplicate-free. */
  lemma ToggleKeepsNoDuplicates(watchlist: seq<string>, id: string)
    requires NoDuplicates(watchlist)
    ensures NoDuplicates(ToggleWatchlist(watchlist, id))
  {
    if id in watchlist {
      FilterNoDuplicates(x => x != id, watchlist);
    } else {
      SnocNoDuplicates(watchlist, id);
    }
  }

  /** Toggling an absent id twice gives back the very same list. */
  lemma ToggleTwiceAbsent(watchlist: seq<string>, id: string)
    requires id !in watchlist
    ensures ToggleWatchlist(ToggleWatchlist(watchlist, id), id) == watchlist
  {
    var p := (x: string) => x != id;
    FilterConcat(p, watchlist, [id]);
    FilterKeepsAll(p, watchlist);
  }

  /** Toggling a present id twice restores membership but moves the id to the
      end: the result is the list without the id, followed by the id. */
  lemma ToggleTwicePresent(watchlist: seq<string>, id: string)
    requires id in watchlist
    ensures ToggleWatchlist(ToggleWatchlist(watchlist, id), id) == ToggleWatchlist(watchlist, id) + [id]
    ensures forall x :: x in ToggleWatchlist(ToggleWatchlist(watchlist, id), id) <==> x in watchlist
  {
  }
}
