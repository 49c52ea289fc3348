/**
 * The track record and the two list lookups the player screen uses on the
 * catalog: `indexOf` when a row of the list is clicked, `getOrNull` to find
 * the current song.
 */
module Catalog {
  import opened Wrappers

  /** One audio file of the device's media store; `duration` is in milliseconds. */
  datatype Song = Song(id: int, title: string, artist: string, duration: int, data: string)

  /**
   * Kotlin's `List.indexOf`: the first position holding an element equal to
   * `x`, or -1 when there is none.
   */
  function IndexOf<T(==)>(xs: seq<T>, x: T): (r: int)
    ensures r == -1 <==> x !in xs
    ensures r != -1 ==> 0 <= r < |xs| && xs[r] == x
    ensures r != -1 ==> forall k :: 0 <= k < r ==> xs[k] != x
  {
    if xs == [] then -1
    else if xs[0] == x then 0
    else
      var r := IndexOf(xs[1..], x);
      if r == -1 then -1 else r + 1
  }

  /** Kotlin's `List.getOrNull`: the element at `i`, or nothing when `i` is out of range. */
  function GetOrNull<T>(xs: seq<T>, i: int): (r: Option<T>)
    ensures r.Some? <==> 0 <= i < |xs|
    ensures r.Some? ==> r.value == xs[i]
  {
    if 0 <= i < |xs| then Some(xs[i]) else None
  }

  /**
   * Clicking the row at position `pos` starts the song at the first position
   * holding an equal record: that is `pos` itself exactly when no earlier row
   * holds an equal record.
   */
  lemma ClickedRowIndex(songs: seq<Song>, pos: int)
    requires 0 <= pos < |songs|
    ensures 0 <= IndexOf(songs, songs[pos]) <= pos
    ensures IndexOf(songs, songs[pos]) == pos <==> forall k :: 0 <= k < pos ==> songs[k] != songs[pos]
  {
  }
}
