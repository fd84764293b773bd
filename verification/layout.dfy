/**
  The shape shared by the two CRAFT assemblers: an opening banner, then six
  blocks, each a header followed by its body, every body but the last ending
  in a blank line.
 */
module Layout {
  import opened Strings

  /** The banner followed by six blocks, each a header and its body. */
  function Blocks(banner: string, h0: string, q0: string, h1: string, q1: string, h2: string, q2: string,
                  h3: string, q3: string, h4: string, q4: string, h5: string, q5: string): string
  {
    banner + ((h0 + q0) + ((h1 + q1) + ((h2 + q2) + ((h3 + q3) + ((h4 + q4) + (h5 + q5))))))
  }

  /** Where each header sits: in order, right after a blank line, the first
      right after the banner. */
  lemma Positions(banner: string, h0: string, q0: string, h1: string, q1: string, h2: string, q2: string,
                  h3: string, q3: string, h4: string, q4: string, h5: string, q5: string)
    returns (p1: nat, p2: nat, p3: nat, p4: nat, p5: nat)
    requires |h1| > 0 && |h2| > 0 && |h3| > 0 && |h4| > 0
    requires EndsWith(q0, "\n\n") && EndsWith(q1, "\n\n") && EndsWith(q2, "\n\n")
    requires EndsWith(q3, "\n\n") && EndsWith(q4, "\n\n")
    ensures var r := Blocks(banner, h0, q0, h1, q1, h2, q2, h3, q3, h4, q4, h5, q5);
      && OccursAt(r, h0, |banner|)
      && |banner| + |h0| < p1 < p2 < p3 < p4 < p5
      && OccursAt(r, h1, p1) && EndsWith(r[..p1], "\n\n")
      && OccursAt(r, h2, p2) && EndsWith(r[..p2], "\n\n")
      && OccursAt(r, h3, p3) && EndsWith(r[..p3], "\n\n")
      && OccursAt(r, h4, p4) && EndsWith(r[..p4], "\n\n")
      && OccursAt(r, h5, p5) && EndsWith(r[..p5], "\n\n")
  {
    var r := Blocks(banner, h0, q0, h1, q1, h2, q2, h3, q3, h4, q4, h5, q5);
    var b0, b1, b2, b3, b4, b5 := h0 + q0, h1 + q1, h2 + q2, h3 + q3, h4 + q4, h5 + q5;
    var t4 := b4 + b5;
    var t3 := b3 + t4;
    var t2 := b2 + t3;
    var t1 := b1 + t2;
    var a1 := banner + b0;
    var a2 := a1 + b1;
    var a3 := a2 + b2;
    var a4 := a3 + b3;
    var a5 := a4 + b4;
    assert r == banner + b0 + t1;
    assert r == a1 + b1 + t2;
    assert r == a2 + b2 + t3;
    assert r == a3 + b3 + t4;
    assert r == a4 + b4 + b5;
    assert r == a5 + b5 + "";
    var e := "\n\n";
    EndsWithAppend(h0, q0, e);
    EndsWithAppend(h1, q1, e);
    EndsWithAppend(h2, q2, e);
    EndsWithAppend(h3, q3, e);
    EndsWithAppend(h4, q4, e);
    EndsWithAppend(banner, b0, e);
    EndsWithAppend(a1, b1, e);
    EndsWithAppend(a2, b2, e);
    EndsWithAppend(a3, b3, e);
    EndsWithAppend(a4, b4, e);
    OccursAfter(banner, h0, q0, t1);
    OccursAfter(a1, h1, q1, t2);
    OccursAfter(a2, h2, q2, t3);
    OccursAfter(a3, h3, q3, t4);
    OccursAfter(a4, h4, q4, b5);
    OccursAfter(a5, h5, q5, "");
    p1, p2, p3, p4, p5 := |a1|, |a2|, |a3|, |a4|, |a5|;
  }

  /** The layout opens with the banner, the first header and its body. */
  lemma Opening(banner: string, h0: string, q0: string, h1: string, q1: string, h2: string, q2: string,
                h3: string, q3: string, h4: string, q4: string, h5: string, q5: string)
    ensures StartsWith(Blocks(banner, h0, q0, h1, q1, h2, q2, h3, q3, h4, q4, h5, q5), banner + h0)
    ensures StartsWith(Blocks(banner, h0, q0, h1, q1, h2, q2, h3, q3, h4, q4, h5, q5), banner + h0 + q0)
  {
    var rest := (h1 + q1) + ((h2 + q2) + ((h3 + q3) + ((h4 + q4) + (h5 + q5))));
    assert Blocks(banner, h0, q0, h1, q1, h2, q2, h3, q3, h4, q4, h5, q5) == (banner + h0) + (q0 + rest);
    StartsWithAppend(banner + h0, q0 + rest);
    assert Blocks(banner, h0, q0, h1, q1, h2, q2, h3, q3, h4, q4, h5, q5) == (banner + h0 + q0) + rest;
    StartsWithAppend(banner + h0 + q0, rest);
  }

  /** The layout ends the way its last body ends. */
  lemma Ending(banner: string, h0: string, q0: string, h1: string, q1: string, h2: string, q2: string,
               h3: string, q3: string, h4: string, q4: string, h5: string, q5: string, z: string)
    requires EndsWith(q5, z)
    ensures EndsWith(Blocks(banner, h0, q0, h1, q1, h2, q2, h3, q3, h4, q4, h5, q5), z)
  {
    var t4 := (h4 + q4) + (h5 + q5);
    var t3 := (h3 + q3) + t4;
    var t2 := (h2 + q2) + t3;
    var t1 := (h1 + q1) + t2;
    EndsWithAppend(h5, q5, z);
    EndsWithAppend(h4 + q4, h5 + q5, z);
    EndsWithAppend(h3 + q3, t4, z);
    EndsWithAppend(h2 + q2, t3, z);
    EndsWithAppend(h1 + q1, t2, z);
    EndsWithAppend(h0 + q0, t1, z);
    EndsWithAppend(banner, (h0 + q0) + t1, z);
  }

  /** Whatever the first body contains, the layout contains. */
  lemma FirstBodyContains(banner: string, h0: string, q0: string, h1: string, q1: string, h2: string, q2: string,
                          h3: string, q3: string, h4: string, q4: string, h5: string, q5: string, p: string)
    requires Contains(q0, p)
    ensures Contains(Blocks(banner, h0, q0, h1, q1, h2, q2, h3, q3, h4, q4, h5, q5), p)
  {
    var rest := (h1 + q1) + ((h2 + q2) + ((h3 + q3) + ((h4 + q4) + (h5 + q5))));
    assert Blocks(banner, h0, q0, h1, q1, h2, q2, h3, q3, h4, q4, h5, q5) == (banner + h0) + q0 + rest;
    ContainsExtend(q0, p, banner + h0, rest);
  }
}
