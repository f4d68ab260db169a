/** The per-user session state of the application: the table of named values
    that init_session_state seeds with defaults on every run of the page,
    without overwriting what an earlier run left there, and the plugin icon
    lookup used when the plugin list is drawn. */
module SessionState {
  import opened Base
  import opened History
  import opened Chat
  import opened Collaborative

  /** A value held in the session state. */
  datatype Setting =
    | Str(s: string)
    | Flag(b: bool)
    | Fraction(r: real)
    | Messages(msgs: seq<ChatMessage>)
    | Log(items: seq<Entry>)
    | List(elems: seq<Setting>)
    | Dict(entries: map<string, Setting>)
    | Store(store: CollaborationSession)
    | NoneValue

  const HistoryKey: string := "chat_history"

  /** The defaults, in the order the loop visits them, with no key twice.
      `collab` is a new collaboration store when COLLAB_ENABLED holds, None otherwise. */
  function Defaults(collab: Setting): (d: seq<(string, Setting)>)
    ensures |d| == 19
    ensures forall i, j :: 0 <= i < j < |d| ==> d[i].0 != d[j].0
  {
    [ ("messages", Messages([])),
      ("model", Str("gemma3:4b")),
      ("temperature", Fraction(0.7)),
      ("rag_enabled", Flag(false)),
      ("voice_enabled", Flag(false)),
      ("image_analysis", Flag(false)),
      ("collab_session", collab),
      ("current_tab", Str("chat")),
      ("api_key", Str("")),
      ("theme", Str("dark")),
      ("auto_refresh", Flag(false)),
      ("tts_enabled", Flag(false)),
      ("streaming_speed", Str("medium")),
      ("selected_plugins", List([])),
      ("chat_history", Log([])),
      ("favorites", List([])),
      ("workspaces", Dict(map["default" := List([])])),
      ("current_workspace", Str("default")),
      ("notifications", List([])) ]
  }

  function KeysOf(defaults: seq<(string, Setting)>): (r: set<string>)
    ensures forall k :: k in r <==> exists i :: 0 <= i < |defaults| && defaults[i].0 == k
  {
    set i | 0 <= i < |defaults| :: defaults[i].0
  }

  /** The value of the first default named `key`. */
  function DefaultFor(defaults: seq<(string, Setting)>, key: string): Setting
    requires key in KeysOf(defaults)
  {
    if defaults[0].0 == key then defaults[0].1 else DefaultFor(defaults[1..], key)
  }

  /** `for key, value in defaults.items(): if key not in state: state[key] = value` */
  function FillDefaults(values: map<string, Setting>, defaults: seq<(string, Setting)>): (r: map<string, Setting>)
    ensures r.Keys == values.Keys + KeysOf(defaults)
    ensures forall k :: k in values ==> r[k] == values[k]
    decreases |defaults|
  {
    if defaults == [] then values
    else
      var before := FillDefaults(values, defaults[..|defaults| - 1]);
      var (key, value) := defaults[|defaults| - 1];
      assert KeysOf(defaults) == KeysOf(defaults[..|defaults| - 1]) + {key};
      if key in before then before else before[key := value]
  }

  /** A key that was missing receives its default value. */
  lemma {:induction false} FillDefaultsGivesDefault(values: map<string, Setting>, defaults: seq<(string, Setting)>, key: string)
    requires key !in values && key in KeysOf(defaults)
    ensures FillDefaults(values, defaults)[key] == DefaultFor(defaults, key)
    decreases |defaults|
  {
    var init := defaults[..|defaults| - 1];
    var last := defaults[|defaults| - 1];
    if key in KeysOf(init) {
      FillDefaultsGivesDefault(values, init, key);
      DefaultForPrefix(defaults, key);
    } else {
      assert last.0 == key;
      DefaultForLast(defaults, key);
    }
  }

  lemma {:induction false} DefaultForPrefix(defaults: seq<(string, Setting)>, key: string)
    requires defaults != [] && key in KeysOf(defaults[..|defaults| - 1])
    ensures key in KeysOf(defaults)
    ensures DefaultFor(defaults, key) == DefaultFor(defaults[..|defaults| - 1], key)
    decreases |defaults|
  {
    var init := defaults[..|defaults| - 1];
    if defaults[0].0 != key {
      assert defaults[1..][..|defaults| - 2] == init[1..];
      DefaultForPrefix(defaults[1..], key);
    }
  }

  lemma {:induction false} DefaultForLast(defaults: seq<(string, Setting)>, key: string)
    requires defaults != [] && key !in KeysOf(defaults[..|defaults| - 1]) && defaults[|defaults| - 1].0 == key
    ensures key in KeysOf(defaults)
    ensures DefaultFor(defaults, key) == defaults[|defaults| - 1].1
    decreases |defaults|
  {
    if |defaults| > 1 {
      assert defaults[0] == defaults[..|defaults| - 1][0];
      assert defaults[1..][..|defaults| - 2] == defaults[..|defaults| - 1][1..];
      DefaultForLast(defaults[1..], key);
    }
  }

  /** The cleanup_chat_history call that ends init_session_state: a non-empty
      log has its datetime stamps turned into text. */
  function CleanupLog(values: map<string, Setting>): (r: map<string, Setting>)
    ensures r.Keys == values.Keys
    ensures forall k :: k in values && k != HistoryKey ==> r[k] == values[k]
  {
    if HistoryKey in values && values[HistoryKey].Log? && values[HistoryKey].items != []
    then values[HistoryKey := Log(Cleaned(values[HistoryKey].items))]
    else values
  }

  class SessionState {
    var values: map<string, Setting>

    constructor ()
      ensures values == map[]
    {
      values := map[];
    }

    /** init_session_state(). `collabEnabled` is COLLAB_ENABLED, which holds only
        when the audio, image and collaboration modules all imported; the new
        store it builds is returned as `collab`. */
    method InitSessionState(collabEnabled: bool) returns (ghost collab: Setting)
      modifies this
      ensures collabEnabled ==> collab.Store? && fresh(collab.store)
      ensures collabEnabled ==> collab.store.Valid() && collab.store.sessions == map[] && collab.store.active == None
      ensures !collabEnabled ==> collab == NoneValue
      ensures values == CleanupLog(FillDefaults(old(values), Defaults(collab)))
    {
      var created: Setting := NoneValue;
      if collabEnabled {
        var store := new CollaborationSession();
        created := Store(store);
      }
      collab := created;
      ApplyDefaults(Defaults(created));
    }

    /** The defaults loop of init_session_state, then its cleanup_chat_history call. */
    method ApplyDefaults(defaults: seq<(string, Setting)>)
      modifies this
      ensures values == CleanupLog(FillDefaults(old(values), defaults))
    {
      FillMissing(defaults);
      if HistoryKey in values && values[HistoryKey].Log? && values[HistoryKey].items != [] {
        var cleaned := CleanHistory(values[HistoryKey].items);
        values := values[HistoryKey := Log(cleaned)];
      }
    }

    /** `for key, value in defaults.items(): if key not in state: state[key] = value` */
    method FillMissing(defaults: seq<(string, Setting)>)
      modifies this
      ensures values == FillDefaults(old(values), defaults)
    {
      var i := 0;
      while i < |defaults|
        invariant 0 <= i <= |defaults|
        invariant values == FillDefaults(old(values), defaults[..i])
      {
        var (key, value) := defaults[i];
        assert defaults[..i + 1][..i] == defaults[..i];
        if key !in values {
          values := values[key := value];
        }
        i := i + 1;
      }
      assert defaults[..i] == defaults;
    }
  }

  /** The default table names the same keys whatever the collaboration store is. */
  lemma DefaultKeysAgree(a: Setting, b: Setting)
    ensures KeysOf(Defaults(a)) == KeysOf(Defaults(b))
  {
    var da, db := Defaults(a), Defaults(b);
    assert |da| == |db|;
    assert forall i :: 0 <= i < |da| ==> da[i].0 == db[i].0;
  }

  /** The first default named `key` is the one at position `i`. */
  lemma {:induction false} DefaultForAt(defaults: seq<(string, Setting)>, i: nat, key: string)
    requires i < |defaults| && defaults[i].0 == key
    requires forall j :: 0 <= j < i ==> defaults[j].0 != key
    ensures key in KeysOf(defaults) && DefaultFor(defaults, key) == defaults[i].1
  {
    if i > 0 {
      DefaultForAt(defaults[1..], i - 1, key);
    }
  }

  /** The log's default is the empty list. */
  lemma HistoryDefaultIsEmpty(collab: Setting)
    ensures HistoryKey in KeysOf(Defaults(collab)) && DefaultFor(Defaults(collab), HistoryKey) == Log([])
  {
    DefaultForAt(Defaults(collab), 14, HistoryKey);
  }

  /** Filling defaults and cleaning the log, for any default table whose log
      default, if it has one, is the empty list. */
  lemma InitKeepsAndCoversFor(values: map<string, Setting>, defaults: seq<(string, Setting)>)
    requires HistoryKey in KeysOf(defaults) ==> DefaultFor(defaults, HistoryKey) == Log([])
    ensures var r := CleanupLog(FillDefaults(values, defaults));
      && r.Keys == values.Keys + KeysOf(defaults)
      && (forall k :: k in values && k != HistoryKey ==> r[k] == values[k])
      && (HistoryKey in values && values[HistoryKey].Log? ==> r[HistoryKey] == Log(Cleaned(values[HistoryKey].items)))
      && (forall k :: k !in values && k in KeysOf(defaults) ==> r[k] == DefaultFor(defaults, k))
  {
    var filled := FillDefaults(values, defaults);
    forall k | k !in values && k in KeysOf(defaults)
      ensures CleanupLog(filled)[k] == DefaultFor(defaults, k)
    {
      FillDefaultsGivesDefault(values, defaults, k);
    }
    if HistoryKey in values && values[HistoryKey].Log? && values[HistoryKey].items == [] {
      assert Cleaned([]) == [];
    }
  }

  /** init_session_state never overwrites a value already present (the log is
      only cleaned), and afterwards every default key is present, holding its
      default when it was missing. */
  lemma InitKeepsAndCovers(values: map<string, Setting>, collab: Setting)
    ensures var r := CleanupLog(FillDefaults(values, Defaults(collab)));
      && r.Keys == values.Keys + KeysOf(Defaults(collab))
      && (forall k :: k in values && k != HistoryKey ==> r[k] == values[k])
      && (HistoryKey in values && values[HistoryKey].Log? ==> r[HistoryKey] == Log(Cleaned(values[HistoryKey].items)))
      && (forall k :: k !in values && k in KeysOf(Defaults(collab)) ==> r[k] == DefaultFor(Defaults(collab), k))
  {
    HistoryDefaultIsEmpty(collab);
    InitKeepsAndCoversFor(values, Defaults(collab));
  }

  /** Filling defaults into a table that already has every key changes nothing. */
  lemma FillDefaultsComplete(values: map<string, Setting>, defaults: seq<(string, Setting)>)
    requires KeysOf(defaults) <= values.Keys
    ensures FillDefaults(values, defaults) == values
  {
  }

  /** Cleaning the log a second time changes nothing. */
  lemma CleanupLogIdempotent(values: map<string, Setting>)
    ensures CleanupLog(CleanupLog(values)) == CleanupLog(values)
  {
    if HistoryKey in values && values[HistoryKey].Log? && values[HistoryKey].items != [] {
      var items := values[HistoryKey].items;
      CleanedIdempotent(items);
      assert CleanupLog(values)[HistoryKey] == Log(Cleaned(items));
    }
  }

  /** Filling and cleaning twice is filling and cleaning once, when the second
      table names no key the first one did not. */
  lemma InitIdempotentFor(values: map<string, Setting>, first: seq<(string, Setting)>, second: seq<(string, Setting)>)
    requires KeysOf(second) <= KeysOf(first)
    ensures var once := CleanupLog(FillDefaults(values, first));
      CleanupLog(FillDefaults(once, second)) == once
  {
    var once := CleanupLog(FillDefaults(values, first));
    FillDefaultsComplete(once, second);
    CleanupLogIdempotent(FillDefaults(values, first));
  }

  /** Running init_session_state again, on a later run of the page, changes
      nothing more: every key is already there and the log is already clean. */
  lemma InitIdempotent(values: map<string, Setting>, first: Setting, second: Setting)
    ensures var once := CleanupLog(FillDefaults(values, Defaults(first)));
      CleanupLog(FillDefaults(once, Defaults(second))) == once
  {
    DefaultKeysAgree(first, second);
    InitIdempotentFor(values, Defaults(first), Defaults(second));
  }

  // ---------------------------------------------------------------------
  // get_plugin_icon

  const PluginIcons: map<string, string> :=
    map["email" := "\U{1F4E7}", "code" := "\U{1F4BB}", "data" := "\U{1F4CA}",
        "creative" := "\U{1F3A8}", "research" := "\U{1F50D}", "translate" := "\U{1F310}"]

  const FallbackIcon: string := "\U{1F9E9}"

  /** The icon of a plugin: its own for the six known plugins, the puzzle
      piece for any other name. */
  function PluginIcon(plugin: string): (r: string)
    ensures plugin in PluginIcons ==> r == PluginIcons[plugin]
    ensures r == FallbackIcon <==> plugin !in PluginIcons
  {
    if plugin in PluginIcons then PluginIcons[plugin] else FallbackIcon
  }

  /** Two known plugins never share an icon. */
  lemma PluginIconsDistinct(a: string, b: string)
    requires a in PluginIcons && b in PluginIcons && a != b
    ensures PluginIcon(a) != PluginIcon(b)
  {
  }
}
