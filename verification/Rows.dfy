// Row images, keys and tables as the change stream carries them.
module Rows {
  /** One column of a decoded change: NULL, a text value, or the marker that
      the value was stored out of line and left as it was. */
  datatype Cell = Null | Text(text: string) | UnchangedToast

  type Row = seq<Cell>
  type Key = seq<string>
  type Table = map<Key, Row>

  datatype Option<T> = None | Some(value: T)
  datatype Result<T> = Ok(value: T) | Err(error: string)

  predicate HasToast(row: Row) {
    UnchangedToast in row
  }

  /** A row image whose identity columns all carry a text value. */
  predicate Keyed(ix: seq<nat>, row: Row) {
    forall i :: 0 <= i < |ix| ==> ix[i] < |row| && row[ix[i]].Text?
  }

  function KeyAt(ix: seq<nat>, row: Row): (k: Key)
    requires Keyed(ix, row)
  {
    seq(|ix|, i requires 0 <= i < |ix| => row[ix[i]].text)
  }

  /** What the first identity column without a text value is refused for. */
  predicate RefusedFor(ix: seq<nat>, row: Row, j: nat, error: string)
    requires j < |ix|
  {
    && (forall i :: 0 <= i < j ==> ix[i] < |row| && row[ix[i]].Text?)
    && (if ix[j] < |row| && row[ix[j]].UnchangedToast? then error == TOAST_KEY
        else (ix[j] >= |row| || row[ix[j]].Null?) && error == NULL_KEY)
  }

  const NULL_KEY: string := "NULL or missing key column"
  const TOAST_KEY: string := "unchanged-TOAST key column"

  /** The identity of an image, column by column; the first column that is
      NULL, missing or out of line refuses it, and says which it is. */
  method KeyOf(ix: seq<nat>, row: Row) returns (r: Result<Key>)
    ensures r.Ok? <==> Keyed(ix, row)
    ensures r.Ok? ==> r.value == KeyAt(ix, row)
    ensures r.Err? ==> exists j :: 0 <= j < |ix| && RefusedFor(ix, row, j, r.error)
  {
    var key: Key := [];
    for i := 0 to |ix|
      invariant |key| == i
      invariant forall j :: 0 <= j < i ==> ix[j] < |row| && row[ix[j]].Text? && key[j] == row[ix[j]].text
    {
      if ix[i] >= |row| || row[ix[i]].Null? {
        assert RefusedFor(ix, row, i, NULL_KEY);
        return Err(NULL_KEY);
      }
      if row[ix[i]].UnchangedToast? {
        assert RefusedFor(ix, row, i, TOAST_KEY);
        return Err(TOAST_KEY);
      }
      key := key + [row[ix[i]].text];
    }
    r := Ok(key);
  }

  /** An image with its out-of-line cells taken from `base`. */
  function Patch(row: Row, base: Row): (r: Row)
    ensures |r| == |row|
    ensures forall i :: 0 <= i < |row| && row[i] != UnchangedToast ==> r[i] == row[i]
    ensures forall i :: 0 <= i < |row| && row[i] == UnchangedToast && i < |base| ==> r[i] == base[i]
  {
    seq(|row|, i requires 0 <= i < |row| =>
      if row[i] == UnchangedToast && i < |base| then base[i] else row[i])
  }

  /** A new image whose identity columns came out of line takes them from the
      old image: an identity left as it was is the old one. */
  function KeyFromOld(ix: seq<nat>, old_: Row, row: Row): (r: Row)
    ensures |r| == |row|
    ensures Keyed(ix, row) ==> r == row
    ensures Keyed(ix, old_) && (forall i :: 0 <= i < |ix| ==> ix[i] < |row| && row[ix[i]] != Null) ==> Keyed(ix, r)
  {
    seq(|row|, i requires 0 <= i < |row| =>
      if i in ix && row[i] == UnchangedToast && i < |old_| && old_[i].Text? then old_[i] else row[i])
  }

  /** An identity left out of line is the old one, column by column, and no
      other cell of the image changes. */
  lemma UnchangedKeyIsOld(ix: seq<nat>, old_: Row, row: Row)
    requires Keyed(ix, old_) && forall i :: 0 <= i < |ix| ==> ix[i] < |row| && row[ix[i]] != Null
    ensures var r := KeyFromOld(ix, old_, row);
            && Keyed(ix, r)
            && (forall j :: 0 <= j < |ix| ==>
                  KeyAt(ix, r)[j] == if row[ix[j]] == UnchangedToast then KeyAt(ix, old_)[j] else row[ix[j]].text)
            && (forall i :: 0 <= i < |row| && i !in ix ==> r[i] == row[i])
            && ((forall j :: 0 <= j < |ix| ==> row[ix[j]] == UnchangedToast) ==> KeyAt(ix, r) == KeyAt(ix, old_))
  {
    assert forall j :: 0 <= j < |ix| ==> ix[j] in ix;
  }

  lemma PatchKeepsKey(ix: seq<nat>, row: Row, base: Row)
    requires Keyed(ix, row)
    ensures Keyed(ix, Patch(row, base)) && KeyAt(ix, Patch(row, base)) == KeyAt(ix, row)
  {
  }
}
