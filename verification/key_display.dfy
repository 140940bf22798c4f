/**
 * The display form of a wallet key shown in the "Connected to wallet" notice
 * (src/utils/wallet.tsx:58-65): a base58 text longer than 20 characters is cut
 * down to its first 7 characters, five dots and its last 7 characters; any
 * shorter text is shown as it is.
 */
module KeyDisplay {

  /** The display form of the base58 text `key`. */
  function Shorten(key: string): (shown: string)
    ensures |shown| <= 20
    ensures |key| <= 20 ==> shown == key
    ensures |key| > 20 ==>
      && |shown| == 19 < |key|
      && shown[..7] == key[..7]
      && shown[7..12] == "....."
      && shown[12..] == key[|key| - 7..]
  {
    if |key| > 20 then key[..7] + "....." + key[|key| - 7..] else key
  }

  /** A text is its own display form exactly when it is at most 20 characters long. */
  lemma ShortenFixedPointIff(key: string)
    ensures Shorten(key) == key <==> |key| <= 20
  {
  }

  /** Shortening a display form again changes nothing. */
  lemma ShortenIdempotent(key: string)
    ensures Shorten(Shorten(key)) == Shorten(key)
  {
  }

  /**
   * For a text without dots (base58 has none) the display form contains a dot
   * exactly when the text was cut, so a reader can tell the two forms apart.
   */
  lemma ShortenMarksElision(key: string)
    requires forall i :: 0 <= i < |key| ==> key[i] != '.'
    ensures '.' in Shorten(key) <==> |key| > 20
  {
  }

  /** The 26-letter alphabet keeps its first seven and its last seven letters. */
  lemma ShortenAlphabet()
    ensures Shorten("ABCDEFGHIJKLMNOPQRSTUVWXYZ") == "ABCDEFG.....TUVWXYZ"
  {
  }
}
