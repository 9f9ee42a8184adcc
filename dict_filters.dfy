/**
 * The two template filters of the dashboards: a dictionary lookup usable from
 * a template, and the Brazilian number format, which swaps the thousands and
 * decimal separators of an already formatted number.
 */
module DictFilters {
  import opened Wrappers

  /** `get_item`: None for a missing dictionary, otherwise `dictionary.get(key)`. */
  function GetItem<K, V>(dictionary: Option<map<K, V>>, key: K): (r: Option<V>)
    ensures dictionary.None? ==> r.None?
    ensures dictionary.Some? ==> (r.Some? <==> key in dictionary.value)
    ensures r.Some? ==> dictionary.Some? && key in dictionary.value && r.value == dictionary.value[key]
  {
    match dictionary
    case None => None
    case Some(d) => if key in d then Some(d[key]) else None
  }

  /** `str.replace(from, to)` for single characters: every occurrence of `from` becomes `to`. */
  function Replace(s: string, from: char, to: char): (r: string)
    ensures |r| == |s|
    ensures forall i :: 0 <= i < |s| ==> r[i] == (if s[i] == from then to else s[i])
  {
    if s == [] then [] else [if s[0] == from then to else s[0]] + Replace(s[1..], from, to)
  }

  /** What the separator swap does to one character: ',' and '.' trade places and the placeholder 'X' becomes '.'. */
  function SwapChar(c: char): char {
    if c == ',' || c == 'X' then '.' else if c == '.' then ',' else c
  }

  /** `.replace(',', 'X').replace('.', ',').replace('X', '.')` on the formatted number. */
  function SwapSeparators(s: string): (r: string)
    ensures |r| == |s|
    ensures forall i :: 0 <= i < |s| ==> r[i] == SwapChar(s[i])
  {
    Replace(Replace(Replace(s, ',', 'X'), '.', ','), 'X', '.')
  }

  /** On text without the placeholder 'X' the swap is its own inverse. */
  lemma SwapSeparatorsInvolutive(s: string)
    requires 'X' !in s
    ensures SwapSeparators(SwapSeparators(s)) == s
  {
    var t := SwapSeparators(SwapSeparators(s));
    assert forall i :: 0 <= i < |s| ==> t[i] == SwapChar(SwapChar(s[i])) == s[i];
  }

  /**
   * The value handed to `formatar_br`: its `str()` text, its truth value, and
   * the text `f"{float(value):,.{n}f}"` produces, or None when `float(value)`
   * raises ValueError or TypeError.
   */
  datatype FilterValue = FilterValue(text: string, truthy: bool, formatted: Option<string>)

  /** `formatar_br`: '-' for None, the separator-swapped number, or the fallback when conversion fails. */
  function FormatBr(value: Option<FilterValue>): (r: string)
    ensures value.None? ==> r == "-"
    ensures value.Some? && value.value.formatted.Some? ==>
      |r| == |value.value.formatted.value| &&
      forall i :: 0 <= i < |r| ==> r[i] == SwapChar(value.value.formatted.value[i])
    ensures value.Some? && value.value.formatted.None? ==> r == (if value.value.truthy then value.value.text else "-")
  {
    match value
    case None => "-"
    case Some(v) =>
      match v.formatted
      case Some(f) => SwapSeparators(f)
      case None => if v.truthy then v.text else "-"
  }
}
