/**
  The browser's `localStorage` as both components use it: a string-to-string store in which
  the settings record lives, as JSON text, under one key.
 */
module Storage {
  import opened Wrappers
  import opened ApiConfigs
  import JsonConfig

  /** The one key either component reads or writes. */
  const ConfigKey: string := "evolutionApiConfig"

  /** The store. It outlives the page, so it is handed to whoever reads or writes it. */
  class LocalStorage {
    var entries: map<string, string>

    constructor (initial: map<string, string>)
      ensures entries == initial
    {
      entries := initial;
    }

    /**
      `localStorage.setItem(key, value)`. The browser may refuse the write (a full quota) by
      throwing; whether it does is the caller's parameter, and a refused write changes nothing.
     */
    method SetItem(key: string, value: string, quotaExceeded: bool) returns (threw: bool)
      modifies this
      ensures threw == quotaExceeded
      ensures entries == if threw then old(entries) else old(entries)[key := value]
    {
      threw := quotaExceeded;
      if !threw {
        entries := entries[key := value];
      }
    }
  }

  /** What a load effect finds in the store. */
  datatype LoadResult =
    | NoConfig              // `getItem` gave `null` or the empty string: the `if` is not taken
    | Loaded(config: ApiConfig)
    | ParseThrew            // `JSON.parse` throws; neither effect catches it

  /**
    The reading step both load effects share: look the key up, treat a missing or empty
    value as nothing stored (JavaScript truthiness), otherwise parse the text as JSON.
   */
  function LoadConfig(entries: map<string, string>): (r: LoadResult)
    ensures r.NoConfig? <==> ConfigKey !in entries || entries[ConfigKey] == ""
  {
    if ConfigKey !in entries || entries[ConfigKey] == "" then NoConfig
    else
      match JsonConfig.ParseConfig(entries[ConfigKey])
      case Some(c) => Loaded(c)
      case None => ParseThrew
  }

  /**
    What `handleSave` writes is what a later load restores, whatever else the store holds
    and whatever the three strings contain.
   */
  lemma LoadAfterSave(entries: map<string, string>, c: ApiConfig)
    ensures LoadConfig(entries[ConfigKey := JsonConfig.Stringify(c)]) == Loaded(c)
  {
    JsonConfig.ParseStringify(c);
  }
}
