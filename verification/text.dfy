/** Occurrence of one string inside another, and of three strings one
    after another. */
module Text {

  /** `p` occurs in `s` starting at position `i`. */
  ghost predicate OccursAt(s: string, p: string, i: nat) {
    i + |p| <= |s| && s[i..i + |p|] == p
  }

  /** `p` occurs somewhere in `s`. */
  ghost predicate Contains(s: string, p: string) {
    exists i: nat :: OccursAt(s, p, i)
  }

  /** `x`, `y` and `z` occur in `s` in this order, without overlapping. */
  ghost predicate InOrder(s: string, x: string, y: string, z: string) {
    exists i: nat, j: nat, k: nat ::
      OccursAt(s, x, i) && OccursAt(s, y, j) && OccursAt(s, z, k) &&
      i + |x| <= j && j + |y| <= k
  }

  /** The piece between `a` and `b` occurs right after `a`. */
  lemma OccursMiddle(a: string, p: string, b: string)
    ensures OccursAt(a + p + b, p, |a|)
  {
    assert (a + p + b)[|a|..|a| + |p|] == p;
  }

  lemma ContainsPrefix(p: string, b: string)
    ensures Contains(p + b, p)
  {
    assert (p + b)[0..|p|] == p;
    assert OccursAt(p + b, p, 0);
  }

  lemma ContainsSuffix(a: string, p: string)
    ensures Contains(a + p, p)
  {
    assert (a + p)[|a|..|a| + |p|] == p;
    assert OccursAt(a + p, p, |a|);
  }

  lemma ContainsMiddle(a: string, p: string, b: string)
    ensures Contains(a + p + b, p)
  {
    OccursMiddle(a, p, b);
  }

  /** Containment is transitive. */
  lemma ContainsTransitive(s: string, m: string, p: string)
    requires Contains(s, m) && Contains(m, p)
    ensures Contains(s, p)
  {
    var i: nat :| OccursAt(s, m, i);
    var j: nat :| OccursAt(m, p, j);
    forall t | 0 <= t < |p| ensures s[i + j + t] == p[t] {
      assert p[t] == m[j..j + |p|][t] == m[j + t];
      assert m[j + t] == s[i..i + |m|][j + t] == s[i + j + t];
    }
    assert s[i + j..i + j + |p|] == p;
    assert OccursAt(s, p, i + j);
  }

  /** An occurrence stays one when text is appended. */
  lemma OccursExtend(s: string, p: string, i: nat, e: string)
    requires OccursAt(s, p, i)
    ensures OccursAt(s + e, p, i)
  {
    assert (s + e)[i..i + |p|] == s[i..i + |p|];
  }

  /** An occurrence moves right by the length of prepended text. */
  lemma OccursShift(a: string, s: string, p: string, i: nat)
    requires OccursAt(s, p, i)
    ensures OccursAt(a + s, p, |a| + i)
  {
    assert (a + s)[|a| + i..|a| + i + |p|] == s[i..i + |p|];
  }

  lemma OccursEnd(a: string, p: string)
    ensures OccursAt(a + p, p, |a|)
  {
    assert (a + p)[|a|..|a| + |p|] == p;
  }

  lemma InOrderIntro(s: string, x: string, y: string, z: string, i: nat, j: nat, k: nat)
    requires OccursAt(s, x, i) && OccursAt(s, y, j) && OccursAt(s, z, k)
    requires i + |x| <= j && j + |y| <= k
    ensures InOrder(s, x, y, z)
  {
  }

  /** Where `x`, `y` and `z` sit in `b + x + sep + y + sep + (z + t) + e`. */
  lemma TemplateBodyOccurrences(b: string, x: string, sep: string, y: string,
                                z: string, t: string, e: string)
    ensures var body := b + x + sep + y + sep + (z + t) + e;
      && OccursAt(body, x, |b|)
      && OccursAt(body, y, |b| + |x| + |sep|)
      && OccursAt(body, z, |b| + |x| + |sep| + |y| + |sep|)
  {
    var bx := b + x;
    var bxsy := bx + sep + y;
    OccursEnd(b, x);
    OccursExtend(bx, x, |b|, sep + y + sep + (z + t) + e);
    assert bx + (sep + y + sep + (z + t) + e) == b + x + sep + y + sep + (z + t) + e;
    OccursEnd(bx + sep, y);
    OccursExtend(bxsy, y, |bx + sep|, sep + (z + t) + e);
    assert bxsy + (sep + (z + t) + e) == b + x + sep + y + sep + (z + t) + e;
    OccursExtend("" + z, z, 0, t);
    OccursShift(bxsy + sep, z + t, z, 0);
    OccursExtend(bxsy + sep + (z + t), z, |bxsy + sep|, e);
  }

  /** The same, for text laid out as a template: a head, a piece, then a
      body that holds `x`, `y` and `z` separated by `sep`. */
  lemma InOrderInTemplate(a: string, s: string, b: string, x: string, sep: string,
                          y: string, z: string, t: string, e: string)
    ensures InOrder(a + s + (b + x + sep + y + sep + (z + t) + e), x, y, z)
  {
    var body := b + x + sep + y + sep + (z + t) + e;
    var i := |b|;
    var j := |b| + |x| + |sep|;
    var k := |b| + |x| + |sep| + |y| + |sep|;
    TemplateBodyOccurrences(b, x, sep, y, z, t, e);
    OccursShift(a + s, body, x, i);
    OccursShift(a + s, body, y, j);
    OccursShift(a + s, body, z, k);
    InOrderIntro(a + s + body, x, y, z, |a + s| + i, |a + s| + j, |a + s| + k);
  }
}
