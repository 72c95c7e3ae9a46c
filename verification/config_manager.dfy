/**
  The filter configuration: a JSON object whose "filter" entry maps the four
  filter keys to integers. The default values (`FilterDefaults`) are a
  parameter; reading and writing the file are left out, so loading takes what
  the file yielded as an input.
 */
module ConfigManager {
  import opened Text

  /** The four filter settings. */
  datatype FilterKey = MaxVideos | MinViews | MinLikes | MinDuration

  function KeyName(k: FilterKey): string
  {
    match k
    case MaxVideos => "max_videos"
    case MinViews => "min_views"
    case MinLikes => "min_likes"
    case MinDuration => "min_duration"
  }

  /** The key names, as strings. */
  const FilterKeys: set<string> := {"max_videos", "min_views", "min_likes", "min_duration"}

  /** `FilterDefaults`. */
  datatype Defaults = Defaults(maxVideos: int, minViews: int, minLikes: int, minDuration: int)

  function DefaultOf(d: Defaults, k: FilterKey): int
  {
    match k
    case MaxVideos => d.maxVideos
    case MinViews => d.minViews
    case MinLikes => d.minLikes
    case MinDuration => d.minDuration
  }

  /** `config_data`: only its "filter" entry is ever read or written. */
  datatype Config = Config(filter: map<string, int>)

  /** The top-level object read from the file; `filter` is None when it has no "filter" entry. */
  datatype Loaded = Loaded(filter: Option<map<string, int>>)

  /**
    What reading the file yielded: no file, a decoded JSON object, or one of the
    two errors `_load_config` catches (`json.JSONDecodeError`, `IOError`).
   */
  datatype LoadOutcome = Missing | Decoded(data: Loaded) | JsonDecodeError | ReadError

  /** The filter arguments of `update_filter_config`; None leaves a key alone. */
  datatype FilterUpdate = FilterUpdate(maxVideos: Option<int>, minViews: Option<int>, minLikes: Option<int>, minDuration: Option<int>)

  function ArgOf(u: FilterUpdate, k: FilterKey): Option<int>
  {
    match k
    case MaxVideos => u.maxVideos
    case MinViews => u.minViews
    case MinLikes => u.minLikes
    case MinDuration => u.minDuration
  }

  lemma KeyNamesAreFilterKeys()
    ensures forall k: FilterKey :: KeyName(k) in FilterKeys
    ensures forall s :: s in FilterKeys ==> exists k: FilterKey :: KeyName(k) == s
    ensures forall k1: FilterKey, k2: FilterKey :: KeyName(k1) == KeyName(k2) ==> k1 == k2
  {
    assert KeyName(MaxVideos) == "max_videos";
    assert KeyName(MinViews) == "min_views";
    assert KeyName(MinLikes) == "min_likes";
    assert KeyName(MinDuration) == "min_duration";
  }

  /** `_load_default_config`: exactly the four keys, holding the defaults. */
  function DefaultConfig(d: Defaults): (c: Config)
    ensures c.filter.Keys == FilterKeys
    ensures forall k: FilterKey :: KeyName(k) in c.filter && c.filter[KeyName(k)] == DefaultOf(d, k)
  {
    Config(map[KeyName(MaxVideos) := d.maxVideos, KeyName(MinViews) := d.minViews,
               KeyName(MinLikes) := d.minLikes, KeyName(MinDuration) := d.minDuration])
  }

  /** The loaded entries `_merge_config` copies over the defaults: those under a known key. */
  function KnownEntries(f: map<string, int>): map<string, int>
  {
    map s | s in f && s in FilterKeys :: f[s]
  }

  /**
    `_merge_config`: the defaults, with every known key that the loaded "filter"
    holds taking the loaded value; unknown keys are dropped.
   */
  function Merge(d: Defaults, loaded: Loaded): (c: Config)
    ensures c.filter.Keys == FilterKeys
    ensures forall k: FilterKey ::
      c.filter[KeyName(k)] ==
        if loaded.filter.Some? && KeyName(k) in loaded.filter.value then loaded.filter.value[KeyName(k)]
        else DefaultOf(d, k)
  {
    match loaded.filter
    case None => DefaultConfig(d)
    case Some(f) => Config(DefaultConfig(d).filter + KnownEntries(f))
  }

  /**
    `_load_config`: a missing file gives the defaults (and writes them out), a
    decoded object is merged, and a JSON decode error or a read error falls back
    to the defaults.
   */
  function Load(d: Defaults, outcome: LoadOutcome): (c: Config)
    ensures c.filter.Keys == FilterKeys
    ensures !outcome.Decoded? ==> c == DefaultConfig(d)
    ensures outcome.Decoded? ==> c == Merge(d, outcome.data)
  {
    match outcome
    case Decoded(data) => Merge(d, data)
    case _ => DefaultConfig(d)
  }

  /** One `if x is not None: filter_config[key] = x` step. */
  function SetIfGiven(f: map<string, int>, k: FilterKey, arg: Option<int>): map<string, int>
  {
    if arg.Some? then f[KeyName(k) := arg.value] else f
  }

  /**
    `update_filter_config`: each key whose argument is given takes it; every
    other key, and every key outside the four, keeps its value.
   */
  function UpdateFilter(c: Config, u: FilterUpdate): (r: Config)
    ensures forall k: FilterKey :: ArgOf(u, k).Some? ==> KeyName(k) in r.filter && r.filter[KeyName(k)] == ArgOf(u, k).value
    ensures forall s :: (forall k: FilterKey :: KeyName(k) == s ==> ArgOf(u, k).None?) ==>
      (s in r.filter <==> s in c.filter) && (s in c.filter ==> r.filter[s] == c.filter[s])
    ensures r.filter.Keys <= c.filter.Keys + FilterKeys
  {
    KeyNamesAreFilterKeys();
    var f := SetIfGiven(c.filter, MaxVideos, u.maxVideos);
    var f := SetIfGiven(f, MinViews, u.minViews);
    var f := SetIfGiven(f, MinLikes, u.minLikes);
    Config(SetIfGiven(f, MinDuration, u.minDuration))
  }

  /** The `get_*` getters: the stored value, or the default when the key is missing. */
  function Get(c: Config, k: FilterKey, d: Defaults): (v: int)
    ensures KeyName(k) in c.filter ==> v == c.filter[KeyName(k)]
    ensures KeyName(k) !in c.filter ==> v == DefaultOf(d, k)
  {
    if KeyName(k) in c.filter then c.filter[KeyName(k)] else DefaultOf(d, k)
  }

  // ---- Properties ----

  /** After loading, each getter sees the loaded value when the file had one, else the default. */
  lemma MergeThenGet(d: Defaults, loaded: Loaded, k: FilterKey)
    ensures Get(Merge(d, loaded), k, d) ==
      if loaded.filter.Some? && KeyName(k) in loaded.filter.value then loaded.filter.value[KeyName(k)]
      else DefaultOf(d, k)
  {
  }

  /** A file with no "filter" entry, or one that cannot be read, leaves every getter at its default. */
  lemma UnusableFileGivesDefaults(d: Defaults, outcome: LoadOutcome, k: FilterKey)
    requires !outcome.Decoded? || outcome.data.filter.None?
    ensures Get(Load(d, outcome), k, d) == DefaultOf(d, k)
  {
  }

  /** After an update, a getter sees the given argument, or the value it saw before. */
  lemma UpdateThenGet(c: Config, u: FilterUpdate, k: FilterKey, d: Defaults)
    ensures Get(UpdateFilter(c, u), k, d) == if ArgOf(u, k).Some? then ArgOf(u, k).value else Get(c, k, d)
  {
    KeyNamesAreFilterKeys();
  }

  /** An update with no arguments changes nothing. */
  lemma UpdateNothingIsIdentity(c: Config)
    ensures UpdateFilter(c, FilterUpdate(None, None, None, None)) == c
  {
  }

  /** Configurations built by loading and updating always hold exactly the four keys. */
  lemma UpdateKeepsKeys(c: Config, u: FilterUpdate)
    requires c.filter.Keys == FilterKeys
    ensures UpdateFilter(c, u).filter.Keys == FilterKeys
  {
    KeyNamesAreFilterKeys();
  }

  /** Saving a configuration with the four keys and loading it back gives the same configuration. */
  lemma SaveThenLoad(c: Config, d: Defaults)
    requires c.filter.Keys == FilterKeys
    ensures Load(d, Decoded(Loaded(Some(c.filter)))) == c
  {
    KeyNamesAreFilterKeys();
    var r := Load(d, Decoded(Loaded(Some(c.filter))));
    forall s | s in FilterKeys ensures r.filter[s] == c.filter[s] {
      var k: FilterKey :| KeyName(k) == s;
    }
  }
}
