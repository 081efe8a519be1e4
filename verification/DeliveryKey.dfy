/**
 The key under which a pending message is filed: the broker's delivery tag
 qualified by the confirm-channel generation it was issued on (publisher.go:1293-1307).
 */
module DeliveryKeys {

  const TAG_SPAN: nat := 0x100_0000_0000       // 2^40 tags per generation
  const GENERATION_SPAN: nat := 0x100_0000     // 2^24 generations fit above them in 64 bits

  /** The key as a number: the shifted-out high generation bits and the masked-off high tag bits are lost. */
  function DeliveryKey(generation: nat, tag: nat): (key: nat) {
    (generation % GENERATION_SPAN) * TAG_SPAN + tag % TAG_SPAN
  }

  /** The same key on the 64-bit words the program computes it with. */
  function DeliveryKeyBits(generation: bv64, tag: bv64): (key: bv64) {
    (generation << 40) | (tag & 0xFF_FFFF_FFFF)
  }

  /** Two keys collide exactly when both halves agree modulo their field widths. */
  lemma KeyCollision(g: nat, t: nat, g': nat, t': nat)
    ensures DeliveryKey(g, t) == DeliveryKey(g', t') <==>
            g % GENERATION_SPAN == g' % GENERATION_SPAN && t % TAG_SPAN == t' % TAG_SPAN
  {
    var a, b, a', b' := g % GENERATION_SPAN, t % TAG_SPAN, g' % GENERATION_SPAN, t' % TAG_SPAN;
    if a < a' {
      assert a * TAG_SPAN + TAG_SPAN <= a' * TAG_SPAN;
    } else if a' < a {
      assert a' * TAG_SPAN + TAG_SPAN <= a * TAG_SPAN;
    }
  }

  /** Within the documented limits a key therefore names one generation and one tag. */
  lemma KeyInjective(g: nat, t: nat, g': nat, t': nat)
    requires g < GENERATION_SPAN && g' < GENERATION_SPAN
    requires t < TAG_SPAN && t' < TAG_SPAN
    requires DeliveryKey(g, t) == DeliveryKey(g', t')
    ensures g == g' && t == t'
  {
    KeyCollision(g, t, g', t');
  }

  /** The two halves can be read back from the word: the low 24 bits of the generation, the low 40 of the tag. */
  lemma KeyBitsRoundTrip(g: bv64, t: bv64)
    ensures DeliveryKeyBits(g, t) >> 40 == g & 0xFF_FFFF
    ensures DeliveryKeyBits(g, t) & 0xFF_FFFF_FFFF == t & 0xFF_FFFF_FFFF
  {
  }

  /** The limit is sharp: generation 2^24 reuses the keys of generation 0. */
  lemma KeyWrapsAtLimit(tag: nat)
    ensures DeliveryKey(GENERATION_SPAN, tag) == DeliveryKey(0, tag)
  {
    KeyCollision(GENERATION_SPAN, tag, 0, tag);
  }
}
