/**
 * The configuration the bot reads at start-up: the allowed user ids and the
 * `hosts` and `commands` sections, each an ordered list of alias/value
 * entries (iteration order is file order; aliases are case-sensitive).
 */
module Registry {
  import opened Wrappers

  /** One `alias = value` line of a configuration section. */
  datatype Entry = Entry(name: string, value: string)

  datatype Config = Config(users: seq<int>, hosts: seq<Entry>, commands: seq<Entry>)

  /** The aliases of a section, in iteration order. */
  function Names(section: seq<Entry>): (names: seq<string>)
    ensures |names| == |section|
    ensures forall k :: 0 <= k < |section| ==> names[k] == section[k].name
  {
    seq(|section|, k requires 0 <= k < |section| => section[k].name)
  }

  /** A section's aliases are pairwise distinct, as the configuration parser
      refuses duplicate options. */
  predicate DistinctNames(section: seq<Entry>)
  {
    forall i, j :: 0 <= i < j < |section| ==> section[i].name != section[j].name
  }

  predicate WellFormed(cfg: Config)
  {
    DistinctNames(cfg.hosts) && DistinctNames(cfg.commands)
  }

  /** `section[alias]`: the value of the first entry named `alias`, or None
      where the source raises a lookup error. */
  function Lookup(section: seq<Entry>, alias: string): (r: Option<string>)
    ensures r.None? <==> alias !in Names(section)
    ensures r.Some? ==> Entry(alias, r.value) in section
  {
    if section == [] then None
    else if section[0].name == alias then Some(section[0].value)
    else
      var rest := Lookup(section[1..], alias);
      assert Names(section) == [section[0].name] + Names(section[1..]);
      rest
  }

  /** With distinct aliases, the lookup finds exactly the value configured
      for the alias (a consequence of `Lookup`'s contract). */
  lemma LookupConfigured(section: seq<Entry>, k: nat)
    requires DistinctNames(section) && k < |section|
    ensures Lookup(section, section[k].name) == Some(section[k].value)
  {
  }
}
