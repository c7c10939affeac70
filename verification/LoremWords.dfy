/** The words the noise is made of. */
module LoremWords {
  const WORDS_0 := ["lorem", "ipsum", "dolor", "sit", "amet", "consectetur", "adipiscing", "elit", "sed", "do"]
  const WORDS_1 := ["eiusmod", "tempor", "incididunt", "ut", "labore", "et", "dolore", "magna", "aliqua", "enim"]
  const WORDS_2 := ["ad", "minim", "veniam", "quis", "nostrud", "exercitation", "ullamco", "laboris", "nisi", "aliquip"]
  const WORDS_3 := ["ex", "ea", "commodo", "consequat", "duis", "aute", "irure", "in", "reprehenderit", "voluptate"]
  const WORDS_4 := ["velit", "esse", "cillum", "fugiat", "nulla", "pariatur", "excepteur", "sint", "occaecat", "cupidatat"]
  const WORDS_5 := ["non", "proident", "sunt", "culpa", "qui", "officia", "deserunt", "mollit", "anim", "id"]
  const WORDS_6 := ["est", "laborum", "pellentesque", "habitant", "morbi", "tristique", "senectus", "netus", "malesuada", "fames"]
  const WORDS_7 := ["turpis", "egestas", "vestibulum", "tortor", "quam", "feugiat", "vitae", "ultricies", "eget", "ante"]
  const WORDS_8 := ["donec", "eu", "libero", "quam", "semper", "aenean", "mauris", "placerat", "eleifend", "leo"]

  const LOREM_WORDS := WORDS_0 + WORDS_1 + WORDS_2 + WORDS_3 + WORDS_4 + WORDS_5 + WORDS_6 + WORDS_7 + WORDS_8

  const MIN_WORD := 2
  const MAX_WORD := 13

  // Short, lower-case letters only, and no word of eight letters with an f in front, as the needle has one.
  predicate Fits(w: string) {
    && MIN_WORD <= |w| <= MAX_WORD
    && (forall i :: 0 <= i < |w| ==> 'a' <= w[i] <= 'z')
    && (|w| == 8 ==> w[0] != 'f')
  }

  predicate AllFit(ws: seq<string>) {
    forall i :: 0 <= i < |ws| ==> Fits(ws[i])
  }

  lemma Fit0()
    ensures AllFit(WORDS_0)
  {
    assert Fits(WORDS_0[0]) && Fits(WORDS_0[1]) && Fits(WORDS_0[2]) && Fits(WORDS_0[3]) && Fits(WORDS_0[4]);
    assert Fits(WORDS_0[5]) && Fits(WORDS_0[6]) && Fits(WORDS_0[7]) && Fits(WORDS_0[8]) && Fits(WORDS_0[9]);
  }

  lemma Fit1()
    ensures AllFit(WORDS_1)
  {
    assert Fits(WORDS_1[0]) && Fits(WORDS_1[1]) && Fits(WORDS_1[2]) && Fits(WORDS_1[3]) && Fits(WORDS_1[4]);
    assert Fits(WORDS_1[5]) && Fits(WORDS_1[6]) && Fits(WORDS_1[7]) && Fits(WORDS_1[8]) && Fits(WORDS_1[9]);
  }

  lemma Fit2()
    ensures AllFit(WORDS_2)
  {
    assert Fits(WORDS_2[0]) && Fits(WORDS_2[1]) && Fits(WORDS_2[2]) && Fits(WORDS_2[3]) && Fits(WORDS_2[4]);
    assert Fits(WORDS_2[5]) && Fits(WORDS_2[6]) && Fits(WORDS_2[7]) && Fits(WORDS_2[8]) && Fits(WORDS_2[9]);
  }

  lemma Fit3()
    ensures AllFit(WORDS_3)
  {
    assert Fits(WORDS_3[0]) && Fits(WORDS_3[1]) && Fits(WORDS_3[2]) && Fits(WORDS_3[3]) && Fits(WORDS_3[4]);
    assert Fits(WORDS_3[5]) && Fits(WORDS_3[6]) && Fits(WORDS_3[7]) && Fits(WORDS_3[8]) && Fits(WORDS_3[9]);
  }

  lemma Fit4()
    ensures AllFit(WORDS_4)
  {
    assert Fits(WORDS_4[0]) && Fits(WORDS_4[1]) && Fits(WORDS_4[2]) && Fits(WORDS_4[3]) && Fits(WORDS_4[4]);
    assert Fits(WORDS_4[5]) && Fits(WORDS_4[6]) && Fits(WORDS_4[7]) && Fits(WORDS_4[8]) && Fits(WORDS_4[9]);
  }

  lemma Fit5()
    ensures AllFit(WORDS_5)
  {
    assert Fits(WORDS_5[0]) && Fits(WORDS_5[1]) && Fits(WORDS_5[2]) && Fits(WORDS_5[3]) && Fits(WORDS_5[4]);
    assert Fits(WORDS_5[5]) && Fits(WORDS_5[6]) && Fits(WORDS_5[7]) && Fits(WORDS_5[8]) && Fits(WORDS_5[9]);
  }

  lemma Fit6()
    ensures AllFit(WORDS_6)
  {
    assert Fits(WORDS_6[0]) && Fits(WORDS_6[1]) && Fits(WORDS_6[2]) && Fits(WORDS_6[3]) && Fits(WORDS_6[4]);
    assert Fits(WORDS_6[5]) && Fits(WORDS_6[6]) && Fits(WORDS_6[7]) && Fits(WORDS_6[8]) && Fits(WORDS_6[9]);
  }

  lemma Fit7()
    ensures AllFit(WORDS_7)
  {
    assert Fits(WORDS_7[0]) && Fits(WORDS_7[1]) && Fits(WORDS_7[2]) && Fits(WORDS_7[3]) && Fits(WORDS_7[4]);
    assert Fits(WORDS_7[5]) && Fits(WORDS_7[6]) && Fits(WORDS_7[7]) && Fits(WORDS_7[8]) && Fits(WORDS_7[9]);
  }

  lemma Fit8()
    ensures AllFit(WORDS_8)
  {
    assert Fits(WORDS_8[0]) && Fits(WORDS_8[1]) && Fits(WORDS_8[2]) && Fits(WORDS_8[3]) && Fits(WORDS_8[4]);
    assert Fits(WORDS_8[5]) && Fits(WORDS_8[6]) && Fits(WORDS_8[7]) && Fits(WORDS_8[8]) && Fits(WORDS_8[9]);
  }

  lemma WordsFit()
    ensures |LOREM_WORDS| > 0 && AllFit(LOREM_WORDS)
  {
    Fit0(); Fit1(); Fit2(); Fit3(); Fit4(); Fit5(); Fit6(); Fit7(); Fit8();
  }
}
