/**
  The fixed table of faith themes: nine faith names, each with the address of
  its background image and a short description, in declaration order.
 */
module FaithCatalog {
  import opened Wrappers
  import opened Text

  /** One theme of the catalog. */
  datatype FaithTheme = FaithTheme(name: string, url: string, description: string)

  /** The nine themes, in the order the table declares them. This order decides ties in free-text matching. */
  const Themes: seq<FaithTheme> := [
    FaithTheme("Hinduism",
      "https://images.unsplash.com/photo-1599092027257-28b80e0d9a6b?auto=format&fit=crop&w=1200&q=80",
      "\U{1F549}\U{FE0F} Sacred Mandala & Spiritual Patterns"),
    FaithTheme("Christianity",
      "https://images.unsplash.com/photo-1559327615-cd4628902d4a?auto=format&fit=crop&w=1200&q=80",
      "\U{271D}\U{FE0F} Light & Serenity"),
    FaithTheme("Islam",
      "https://images.unsplash.com/photo-1529333166437-7750a6dd5a70?auto=format&fit=crop&w=1200&q=80",
      "\U{262A}\U{FE0F} Islamic Geometric Patterns"),
    FaithTheme("Buddhism",
      "https://images.unsplash.com/photo-1465101162946-4377e57745c3?auto=format&fit=crop&w=1200&q=80",
      "\U{2638}\U{FE0F} Peaceful Zen Garden"),
    FaithTheme("Judaism",
      "https://images.unsplash.com/photo-1606148162298-69e1f7a47c0c?auto=format&fit=crop&w=1200&q=80",
      "\U{2721}\U{FE0F} Star of David & Heritage"),
    FaithTheme("Sikhism",
      "https://images.unsplash.com/photo-1506744038136-46273834b3fb?auto=format&fit=crop&w=1200&q=80",
      "\U{262C} Golden Temple Inspired"),
    FaithTheme("Spiritualism",
      "https://images.unsplash.com/photo-1506905925346-21bda4d32df4?auto=format&fit=crop&w=1200&q=80",
      "\U{2728} Cosmic & Spiritual Energy"),
    FaithTheme("Taoism",
      "https://images.unsplash.com/photo-1506126613408-eca07ce68773?auto=format&fit=crop&w=1200&q=80",
      "\U{262F}\U{FE0F} Yin-Yang Balance"),
    FaithTheme("Atheism",
      "https://images.unsplash.com/photo-1519904981063-b0cf448d479e?auto=format&fit=crop&w=1200&q=80",
      "\U{1F30C} Universe & Nature")
  ]

  /** The faith names in declaration order (the table's `keys()`). */
  function Keys(): (ks: seq<string>)
    ensures |ks| == |Themes|
    ensures forall i :: 0 <= i < |Themes| ==> ks[i] == Themes[i].name
  {
    seq(|Themes|, i requires 0 <= i < |Themes| => Themes[i].name)
  }

  /** `name` is one of the catalog's keys. */
  predicate IsKey(name: string)
  {
    exists i :: 0 <= i < |Themes| && Themes[i].name == name
  }

  /** No two themes share a name, so the catalog is a well-formed dictionary. */
  lemma KeysDistinct()
    ensures |Themes| == 9
    ensures forall i, j :: 0 <= i < j < |Themes| ==> Themes[i].name != Themes[j].name
  {
  }

  /** Index of the first theme at or after `from` whose name is exactly `name`. */
  function IndexFrom(name: string, from: nat): (r: Option<nat>)
    requires from <= |Themes|
    ensures r.Some? ==> from <= r.value < |Themes| && Themes[r.value].name == name
    ensures r.Some? ==> forall j :: from <= j < r.value ==> Themes[j].name != name
    ensures r.None? ==> forall j :: from <= j < |Themes| ==> Themes[j].name != name
    decreases |Themes| - from
  {
    if from == |Themes| then None
    else if Themes[from].name == name then Some(from)
    else IndexFrom(name, from + 1)
  }

  /** `FAITH_BACKGROUNDS[name]`: exact, case-sensitive lookup by faith name. */
  function Lookup(name: string): (r: Option<FaithTheme>)
    ensures r.Some? <==> IsKey(name)
    ensures r.Some? ==> r.value.name == name && r.value in Themes
  {
    match IndexFrom(name, 0)
    case Some(i) => Some(Themes[i])
    case None => None
  }

  /** Looking up each theme's own name returns that theme: keys and lookup are inverse. */
  lemma LookupKeys(i: nat)
    requires i < |Themes|
    ensures Lookup(Keys()[i]) == Some(Themes[i])
  {
    KeysDistinct();
  }
}
