/** The texts behind intent keys. */
module Intents {

  function Digit(d: nat): char
    requires d < 10
  {
    "0123456789"[d]
  }

  /** The decimal text of a number. */
  function Decimal(n: nat): string {
    if n < 10 then [Digit(n)] else Decimal(n / 10) + [Digit(n % 10)]
  }

  lemma {:induction false} DecimalHasNoColon(n: nat)
    ensures ':' !in Decimal(n) && Decimal(n) != []
  {
    if n >= 10 {
      DecimalHasNoColon(n / 10);
    }
  }

  lemma {:induction false} DecimalIsInjective(m: nat, n: nat)
    requires Decimal(m) == Decimal(n)
    ensures m == n
  {
    DecimalHasNoColon(m / 10);
    DecimalHasNoColon(n / 10);
    if m >= 10 && n >= 10 {
      assert Decimal(m)[..|Decimal(m)| - 1] == Decimal(m / 10);
      assert Decimal(n)[..|Decimal(n)| - 1] == Decimal(n / 10);
      DecimalIsInjective(m / 10, n / 10);
    }
    assert Decimal(m)[|Decimal(m)| - 1] == Digit(m % 10);
    assert Decimal(n)[|Decimal(n)| - 1] == Digit(n % 10);
  }

  /** The text whose hash is the intent key of one file of a plan. */
  function IntentMaterial(itemId: nat, path: string, sha256: string): string {
    Decimal(itemId) + ":" + path + ":" + sha256
  }

  /** Where two splits of a text at a colon differ, the longer part contains the other's colon. */
  lemma ColonsOverlap(a: string, b: string, x: string, y: string)
    requires a + ":" + x == b + ":" + y
    ensures |a| < |b| ==> b[|a|] == ':' && x[|b| - |a| - 1] == ':'
    ensures |a| == |b| ==> a == b && x == y
  {
    var text := a + ":" + x;
    assert text[|a|] == ':' && text[|b|] == ':';
    if |a| < |b| {
      assert text[|a|] == b[|a|];
      assert text[|b|] == x[|b| - |a| - 1];
    }
    assert a == text[..|a|] && b == text[..|b|] && x == text[|a| + 1..] && y == text[|b| + 1..];
  }

  /** Colons in a path do no harm: the item's digits and the hash have none, so the material determines all three. */
  lemma IntentDeterminesFile(itemA: nat, pathA: string, shaA: string, itemB: nat, pathB: string, shaB: string)
    requires ':' !in shaA && ':' !in shaB
    requires IntentMaterial(itemA, pathA, shaA) == IntentMaterial(itemB, pathB, shaB)
    ensures itemA == itemB && pathA == pathB && shaA == shaB
  {
    DecimalHasNoColon(itemA);
    DecimalHasNoColon(itemB);
    assert IntentMaterial(itemA, pathA, shaA) == Decimal(itemA) + ":" + (pathA + ":" + shaA);
    assert IntentMaterial(itemB, pathB, shaB) == Decimal(itemB) + ":" + (pathB + ":" + shaB);
    ColonsOverlap(Decimal(itemA), Decimal(itemB), pathA + ":" + shaA, pathB + ":" + shaB);
    ColonsOverlap(Decimal(itemB), Decimal(itemA), pathB + ":" + shaB, pathA + ":" + shaA);
    ColonsOverlap(pathA, pathB, shaA, shaB);
    ColonsOverlap(pathB, pathA, shaB, shaA);
    DecimalIsInjective(itemA, itemB);
  }

  /** The text whose hash is the intent key of a download: here the path comes last. */
  function DownloadMaterial(sourceId: nat, assetHash: string, target: string): string {
    Decimal(sourceId) + ":" + assetHash + ":" + target
  }

  lemma DownloadMaterialDetermines(sourceA: nat, hashA: string, targetA: string, sourceB: nat, hashB: string,
                                   targetB: string)
    requires ':' !in hashA && ':' !in hashB
    requires DownloadMaterial(sourceA, hashA, targetA) == DownloadMaterial(sourceB, hashB, targetB)
    ensures sourceA == sourceB && hashA == hashB && targetA == targetB
  {
    DecimalHasNoColon(sourceA);
    DecimalHasNoColon(sourceB);
    assert DownloadMaterial(sourceA, hashA, targetA) == Decimal(sourceA) + ":" + (hashA + ":" + targetA);
    assert DownloadMaterial(sourceB, hashB, targetB) == Decimal(sourceB) + ":" + (hashB + ":" + targetB);
    ColonsOverlap(Decimal(sourceA), Decimal(sourceB), hashA + ":" + targetA, hashB + ":" + targetB);
    ColonsOverlap(Decimal(sourceB), Decimal(sourceA), hashB + ":" + targetB, hashA + ":" + targetA);
    ColonsOverlap(hashA, hashB, targetA, targetB);
    ColonsOverlap(hashB, hashA, targetB, targetA);
    DecimalIsInjective(sourceA, sourceB);
  }
}
