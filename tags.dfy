/**
 * The observation tags the Players write into their surroundings, and the
 * three ways the code tests them: `tag.match("Enemy")` and
 * `tag.match("rangedEnemy")` (a case-sensitive substring search), and the
 * regular expressions `/enemy/i`, `/ally/i` and `/enemy|ally/i` (a
 * case-insensitive substring search). Each test is defined on the tag's
 * actual string and then reduced, by a lemma, to the set of tags it hits.
 */
module Tags {

  datatype Observation =
    | NothingInFront
    | StairsInFront
    | RangedEnemyAhead
    | MeleeEnemyAhead
    | EnemyInFront
    | AllyAhead
    | AllyInFront
    | WallInFront

  /** The string each tag is written as. */
  function Name(o: Observation): string
  {
    match o
    case NothingInFront => "nothingInFront"
    case StairsInFront => "stairsInFront"
    case RangedEnemyAhead => "rangedEnemyAhead"
    case MeleeEnemyAhead => "meleeEnemyAhead"
    case EnemyInFront => "enemyInFront"
    case AllyAhead => "allyAhead"
    case AllyInFront => "allyInFront"
    case WallInFront => "wallInFront"
  }

  predicate OccursAt(s: string, p: string, i: int)
  {
    0 <= i <= |s| - |p| && s[i..i + |p|] == p
  }

  /** `p` occurs somewhere in `s`. */
  predicate Contains(s: string, p: string)
  {
    exists i | 0 <= i <= |s| - |p| :: OccursAt(s, p, i)
  }

  function LowerChar(c: char): char
  {
    if 'A' <= c <= 'Z' then (c as int + 32) as char else c
  }

  function Lower(s: string): (r: string)
    ensures |r| == |s| && forall i :: 0 <= i < |s| ==> r[i] == LowerChar(s[i])
  {
    seq(|s|, i requires 0 <= i < |s| => LowerChar(s[i]))
  }

  /** `Name(o).match(pattern)` for a pattern without special characters. */
  predicate Match(o: Observation, pattern: string)
  {
    Contains(Name(o), pattern)
  }

  /** `Name(o).match(/pattern/i)` for a lower-case pattern without special characters. */
  predicate MatchIgnoreCase(o: Observation, pattern: string)
  {
    Contains(Lower(Name(o)), pattern)
  }

  /** `Name(o).match(/enemy|ally/i)`. */
  predicate MatchEnemyOrAlly(o: Observation)
  {
    MatchIgnoreCase(o, "enemy") || MatchIgnoreCase(o, "ally")
  }

  // ---- proof helpers ----

  /** A pattern with a character that `s` lacks does not occur in `s`. */
  lemma {:induction false} AbsentChar(s: string, p: string, k: nat)
    requires k < |p| && p[k] !in s
    ensures !Contains(s, p)
  {
    forall i | 0 <= i <= |s| - |p| ensures !OccursAt(s, p, i) {
      assert s[i + k] in s;
      assert s[i..i + |p|][k] == s[i + k];
    }
  }

  /** A lower-case letter that `s` lacks in both cases is absent from `Lower(s)`. */
  lemma LowerAbsent(s: string, c: char)
    requires 'a' <= c <= 'z' && c !in s && (c as int - 32) as char !in s
    ensures c !in Lower(s)
  {
    forall i | 0 <= i < |s| ensures Lower(s)[i] != c {
      assert s[i] in s;
    }
  }

  /** `/p/i` misses a name lacking the letter `p[k]` in both cases. */
  lemma AbsentLetter(o: Observation, p: string, k: nat)
    requires k < |p| && 'a' <= p[k] <= 'z'
    requires p[k] !in Name(o) && (p[k] as int - 32) as char !in Name(o)
    ensures !MatchIgnoreCase(o, p)
  {
    LowerAbsent(Name(o), p[k]);
    AbsentChar(Lower(Name(o)), p, k);
  }

  // ---- what each test hits ----

  /** `match("Enemy")` hits exactly the two line-of-sight enemy tags, not `enemyInFront`. */
  lemma EnemyMatch(o: Observation)
    ensures Match(o, "Enemy") <==> o == RangedEnemyAhead || o == MeleeEnemyAhead
  {
    match o
    case RangedEnemyAhead => assert OccursAt(Name(o), "Enemy", 6);
    case MeleeEnemyAhead => assert OccursAt(Name(o), "Enemy", 5);
    case _ => AbsentChar(Name(o), "Enemy", 0);
  }

  /** `match("rangedEnemy")` hits exactly `rangedEnemyAhead`. */
  lemma RangedEnemyMatch(o: Observation)
    ensures Match(o, "rangedEnemy") <==> o == RangedEnemyAhead
  {
    match o
    case RangedEnemyAhead => assert OccursAt(Name(o), "rangedEnemy", 0);
    case MeleeEnemyAhead => AbsentChar(Name(o), "rangedEnemy", 0);
    case _ => AbsentChar(Name(o), "rangedEnemy", 6);
  }

  /** `/enemy/i` hits the three enemy tags. */
  lemma EnemyMatchIgnoreCase(o: Observation)
    ensures MatchIgnoreCase(o, "enemy") <==>
            o == RangedEnemyAhead || o == MeleeEnemyAhead || o == EnemyInFront
  {
    if o == RangedEnemyAhead || o == MeleeEnemyAhead || o == EnemyInFront {
      EnemyTagsHitEnemy(o);
    } else {
      OtherTagsMissEnemy(o);
    }
  }

  lemma EnemyTagsHitEnemy(o: Observation)
    requires o == RangedEnemyAhead || o == MeleeEnemyAhead || o == EnemyInFront
    ensures MatchIgnoreCase(o, "enemy")
  {
    match o
    case RangedEnemyAhead => assert OccursAt(Lower(Name(o)), "enemy", 6);
    case MeleeEnemyAhead => assert OccursAt(Lower(Name(o)), "enemy", 5);
    case EnemyInFront => assert OccursAt(Lower(Name(o)), "enemy", 0);
  }

  lemma OtherTagsMissEnemy(o: Observation)
    requires !(o == RangedEnemyAhead || o == MeleeEnemyAhead || o == EnemyInFront)
    ensures !MatchIgnoreCase(o, "enemy")
  {
    match o
    case NothingInFront => AbsentLetter(o, "enemy", 4);
    case StairsInFront => AbsentLetter(o, "enemy", 4);
    case AllyAhead => AbsentLetter(o, "enemy", 1);
    case AllyInFront => AbsentLetter(o, "enemy", 0);
    case WallInFront => AbsentLetter(o, "enemy", 0);
  }

  /** `/ally/i` hits the two ally tags. */
  lemma AllyMatchIgnoreCase(o: Observation)
    ensures MatchIgnoreCase(o, "ally") <==> o == AllyAhead || o == AllyInFront
  {
    if o == AllyAhead || o == AllyInFront {
      assert OccursAt(Lower(Name(o)), "ally", 0);
    } else if o == MeleeEnemyAhead {
      MeleeMissesAlly();
    } else {
      OtherTagsMissAlly(o);
    }
  }

  lemma OtherTagsMissAlly(o: Observation)
    requires !(o == AllyAhead || o == AllyInFront || o == MeleeEnemyAhead)
    ensures !MatchIgnoreCase(o, "ally")
  {
    match o
    case NothingInFront => AbsentLetter(o, "ally", 0);
    case StairsInFront => AbsentLetter(o, "ally", 3);
    case RangedEnemyAhead => AbsentLetter(o, "ally", 1);
    case EnemyInFront => AbsentLetter(o, "ally", 0);
    case WallInFront => AbsentLetter(o, "ally", 3);
  }

  /** Every letter of "ally" occurs in "meleeenemyahead", but no 'a' there is followed by an 'l'. */
  lemma MeleeMissesAlly()
    ensures !MatchIgnoreCase(MeleeEnemyAhead, "ally")
  {
    var t := Lower(Name(MeleeEnemyAhead));
    assert t == "meleeenemyahead";
    forall i | 0 <= i <= |t| - 4 ensures !OccursAt(t, "ally", i) {
      assert t[i..i + 4][0] == t[i] && t[i..i + 4][1] == t[i + 1];
    }
  }

  /** `/enemy|ally/i` hits every unit tag and nothing else. */
  lemma EnemyOrAllyMatch(o: Observation)
    ensures MatchEnemyOrAlly(o) <==>
            o == RangedEnemyAhead || o == MeleeEnemyAhead || o == EnemyInFront ||
            o == AllyAhead || o == AllyInFront
  {
    EnemyMatchIgnoreCase(o);
    AllyMatchIgnoreCase(o);
  }
}
