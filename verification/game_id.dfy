/** `generateGameId` (app/lib/agents/game-recommendation/utils.ts): the join key
    between the description and the price enrichment results.  The source lower-cases
    the name and then replaces every character outside `[a-z0-9]` by `-`, one
    character at a time; runs of separators are NOT collapsed. */
module GameId {
  import opened Strings

  /** A character that may occur in a generated id. */
  predicate IsIdChar(c: char)
  {
    IsAsciiLower(c) || IsDigit(c) || c == '-'
  }

  /** The image of one character: lower-case letters and digits stay, upper-case
      ASCII letters are lowered, everything else becomes `-`. */
  function IdChar(c: char): (r: char)
    ensures IsAsciiLower(c) || IsDigit(c) ==> r == c
    ensures IsAsciiUpper(c) ==> r == LowerChar(c)
    ensures !IsAsciiLower(c) && !IsDigit(c) && !IsAsciiUpper(c) ==> r == '-'
    ensures IsIdChar(r)
  {
    var l := LowerChar(c);
    if IsAsciiLower(l) || IsDigit(l) then l else '-'
  }

  /** `generateGameId(name)`. */
  function GenerateGameId(name: string): (id: string)
    ensures |id| == |name|
    ensures forall i :: 0 <= i < |name| ==> id[i] == IdChar(name[i])
  {
    seq(|name|, i requires 0 <= i < |name| => IdChar(name[i]))
  }

  /** Every character of a generated id lies in `[a-z0-9-]`. */
  lemma IdAlphabet(name: string)
    ensures forall i :: 0 <= i < |GenerateGameId(name)| ==> IsIdChar(GenerateGameId(name)[i])
  {
  }

  /** Ids are fixed points: deriving the id of an id changes nothing. */
  lemma IdIdempotent(name: string)
    ensures GenerateGameId(GenerateGameId(name)) == GenerateGameId(name)
  {
    var id := GenerateGameId(name);
    forall i | 0 <= i < |id|
      ensures IdChar(id[i]) == id[i]
    {
      assert IsIdChar(id[i]);
    }
  }

  /** A string that only uses id characters is its own id (converse of idempotence). */
  lemma IdFixedPoints(s: string)
    ensures GenerateGameId(s) == s <==> forall i :: 0 <= i < |s| ==> IsIdChar(s[i])
  {
    if GenerateGameId(s) == s {
      forall i | 0 <= i < |s| ensures IsIdChar(s[i]) {
        assert s[i] == IdChar(s[i]);
      }
    }
  }

  /** Names that agree up to ASCII letter case get the same id. */
  lemma IdIgnoresCase(a: string, b: string)
    requires |a| == |b|
    requires forall i :: 0 <= i < |a| ==> LowerChar(a[i]) == LowerChar(b[i])
    ensures GenerateGameId(a) == GenerateGameId(b)
  {
    forall i | 0 <= i < |a| ensures IdChar(a[i]) == IdChar(b[i]) {
    }
  }

  /** Ids are equal exactly when the names agree position by position after
      lower-casing, with every non-id character counted as `-`. */
  lemma IdEquality(a: string, b: string)
    ensures GenerateGameId(a) == GenerateGameId(b) <==>
            |a| == |b| && forall i :: 0 <= i < |a| ==> IdChar(a[i]) == IdChar(b[i])
  {
    if GenerateGameId(a) == GenerateGameId(b) {
      forall i | 0 <= i < |a| ensures IdChar(a[i]) == IdChar(b[i]) {
        assert GenerateGameId(a)[i] == GenerateGameId(b)[i];
      }
    }
  }

  /** Separator runs are kept: two spaces give two dashes. */
  lemma NoSeparatorCollapsing()
    ensures GenerateGameId("a  b") == "a--b"
    ensures GenerateGameId("Dark Souls") == "dark-souls"
    ensures GenerateGameId("Dark Souls") == GenerateGameId("dark souls")
  {
  }

  /** Distinct names can share an id, so the id is not injective. */
  lemma IdsCollide()
    ensures "a b" != "a:b" && GenerateGameId("a b") == GenerateGameId("a:b") == "a-b"
  {
  }
}
