/**
  The conversation view (WhatsAppWeb.tsx): a fixed roster of contacts, the selected contact,
  the message log shown for it, the draft being typed, the search term, and the connection
  settings with their `isConnected` flag and the settings dialog's open flag.

  The clock and the locale are not modelled: the id and the time label of a sent message are
  parameters. Case mapping is a per-character function passed in by the caller.
 */
module WhatsAppWeb {
  import opened Wrappers
  import opened ApiConfigs
  import opened Storage
  import opened Text
  import EvolutionApiConfig
  import JsonConfig

  datatype Contact = Contact(
    id: string,
    name: string,
    lastMessage: string,
    timestamp: string,
    unreadCount: nat,
    avatar: Option<string>,
    isOnline: bool,
    phone: string)

  datatype Status = Sent | Delivered | Read

  datatype Message = Message(
    id: string,
    content: string,
    timestamp: string,
    isFromMe: bool,
    status: Status)

  /** The roster, fixed for the life of the view. Its entries are pairwise different. */
  function SeedContacts(): (r: seq<Contact>)
    ensures |r| == 5
    ensures forall i, j :: 0 <= i < j < |r| ==> r[i].id != r[j].id
  {
    [ Contact("1", "João Silva", "Oi! Como você está?", "14:30", 2, None, true, "+55 11 99999-9999"),
      Contact("2", "Maria Santos", "Reunião às 15h confirmada", "13:45", 0, None, false, "+55 11 88888-8888"),
      Contact("3", "Pedro Costa", "Obrigado pela ajuda!", "12:20", 1, None, true, "+55 11 77777-7777"),
      Contact("4", "Ana Oliveira", "Vamos nos encontrar amanhã?", "11:15", 0, None, false, "+55 11 66666-6666"),
      Contact("5", "Carlos Lima", "Projeto finalizado com sucesso!", "Ontem", 3, None, true, "+55 11 55555-5555") ]
  }

  /**
    The log every selection installs, whichever contact is selected: two messages each way,
    none of them still in the `Sent` state.
   */
  function SeedMessages(): (r: seq<Message>)
    ensures |r| == 4
    ensures forall i, j :: 0 <= i < j < |r| ==> r[i].id != r[j].id
    ensures forall i :: 0 <= i < |r| ==> r[i].status != Sent
  {
    [ Message("1", "Oi! Como você está?", "14:25", false, Read),
      Message("2", "Estou bem, obrigado! E você?", "14:26", true, Read),
      Message("3", "Também estou bem! Vamos nos encontrar hoje?", "14:28", false, Read),
      Message("4", "Claro! Que horas seria bom para você?", "14:29", true, Delivered) ]
  }

  /** Whether the contact's lower-cased name includes the lower-cased search term. */
  predicate NameMatches(c: Contact, term: string, lower: char -> char)
  {
    Includes(MapChars(c.name, lower), MapChars(term, lower))
  }

  /** `xs` is `ys` with some elements left out, the rest in their original order. */
  predicate IsSubsequence<T(==)>(xs: seq<T>, ys: seq<T>)
    decreases |ys|
  {
    if xs == [] then true
    else if ys == [] then false
    else (xs[0] == ys[0] && IsSubsequence(xs[1..], ys[1..])) || IsSubsequence(xs, ys[1..])
  }

  /** The contact list shown for a search term: `filteredContacts`. */
  function FilterContacts(contacts: seq<Contact>, term: string, lower: char -> char): (r: seq<Contact>)
    ensures IsSubsequence(r, contacts)
    ensures forall c :: c in r <==> c in contacts && NameMatches(c, term, lower)
    // each matching contact is kept as often as the input holds it
    ensures forall c :: multiset(r)[c] == if NameMatches(c, term, lower) then multiset(contacts)[c] else 0
    decreases |contacts|
  {
    if contacts == [] then []
    else
      var rest := FilterContacts(contacts[1..], term, lower);
      assert forall c :: c in contacts <==> c == contacts[0] || c in contacts[1..];
      assert contacts == [contacts[0]] + contacts[1..];
      assert multiset(contacts) == multiset{contacts[0]} + multiset(contacts[1..]);
      if NameMatches(contacts[0], term, lower) then
        var r := [contacts[0]] + rest;
        assert r[1..] == rest;
        r
      else rest
  }

  /** When every contact matches, the filter keeps the whole roster, in order. */
  lemma {:induction false} FilterKeepsAllMatching(contacts: seq<Contact>, term: string, lower: char -> char)
    requires forall c :: c in contacts ==> NameMatches(c, term, lower)
    ensures FilterContacts(contacts, term, lower) == contacts
    decreases |contacts|
  {
    if contacts != [] {
      assert contacts[0] in contacts;
      assert forall c :: c in contacts[1..] ==> c in contacts;
      FilterKeepsAllMatching(contacts[1..], term, lower);
      assert [contacts[0]] + contacts[1..] == contacts;
    }
  }

  /** An empty search shows every contact. */
  lemma EmptySearchShowsAll(contacts: seq<Contact>, lower: char -> char)
    ensures FilterContacts(contacts, "", lower) == contacts
  {
    assert MapChars("", lower) == "";
    forall c | c in contacts
      ensures NameMatches(c, "", lower)
    {
      IncludesEmpty(MapChars(c.name, lower));
    }
    FilterKeepsAllMatching(contacts, "", lower);
  }

  /** The avatar fallback: the first letter of each space-separated word, upper-cased. */
  function Initials(name: string, upper: char -> char): string
  {
    MapChars(FirstChars(SplitOnSpaces(name)), upper)
  }

  /**
    The initials are the upper-cased word starts of the name: repeated, leading or trailing
    spaces contribute nothing.
   */
  lemma InitialsAreWordStarts(name: string, upper: char -> char)
    ensures Initials(name, upper) == MapChars(WordStarts(name, true), upper)
    ensures |Initials(name, upper)| <= |name|
  {
    FirstCharsOfSplit(name);
    WordStartsLength(name, true);
  }

  lemma {:induction false} WordStartsLength(s: string, afterSpace: bool)
    ensures |WordStarts(s, afterSpace)| <= |s|
    decreases |s|
  {
    if s != [] {
      WordStartsLength(s[1..], s[0] == ' ');
    }
  }

  /**
    The message a send creates, or `None` when the guard refuses: a blank draft (after
    `trim`) or no selected contact. The content is the draft as typed, untrimmed.
   */
  function ComposeMessage(draft: string, selected: Option<Contact>, id: string, timeLabel: string)
    : (r: Option<Message>)
    ensures r.Some? <==> selected.Some? && !IsBlank(draft)
    ensures r.Some? ==> r.value == Message(id, draft, timeLabel, true, Sent)
  {
    TrimEmptyIffBlank(draft);
    if Trim(draft) != "" && selected.Some? then Some(Message(id, draft, timeLabel, true, Sent)) else None
  }

  /** The key test of `handleKeyPress`: Enter without Shift. */
  predicate IsSendKey(key: string, shiftKey: bool)
  {
    key == "Enter" && !shiftKey
  }

  class Session {
    const contacts: seq<Contact>
    var selectedContact: Option<Contact>
    var newMessage: string
    var searchTerm: string
    var messages: seq<Message>
    var isConfigOpen: bool
    var evolutionConfig: Option<ApiConfig>
    var isConnected: bool

    /** Connected exactly when settings are held: every transition sets the two together. */
    ghost predicate Valid()
      reads this
    {
      isConnected <==> evolutionConfig.Some?
    }

    /** The initial state of every `useState`. */
    constructor ()
      ensures Valid()
      ensures contacts == SeedContacts() && selectedContact == None
      ensures newMessage == "" && searchTerm == "" && messages == []
      ensures !isConfigOpen && evolutionConfig == None && !isConnected
    {
      contacts := SeedContacts();
      selectedContact := None;
      newMessage := "";
      searchTerm := "";
      messages := [];
      isConfigOpen := false;
      evolutionConfig := None;
      isConnected := false;
    }

    /**
      The mount effect: stored settings are taken as proof of a connection, without a probe.
      Nothing stored, or a text `JSON.parse` throws on, changes nothing.
     */
    method Startup(store: LocalStorage) returns (r: LoadResult)
      requires Valid()
      modifies this
      ensures Valid()
      ensures r == LoadConfig(store.entries)
      ensures if r.Loaded?
              then evolutionConfig == Some(r.config) && isConnected
              else evolutionConfig == old(evolutionConfig) && isConnected == old(isConnected)
      ensures selectedContact == old(selectedContact) && newMessage == old(newMessage)
      ensures searchTerm == old(searchTerm) && messages == old(messages)
      ensures isConfigOpen == old(isConfigOpen)
    {
      r := LoadConfig(store.entries);
      if r.Loaded? {
        evolutionConfig := Some(r.config);
        isConnected := true;
      }
    }

    /**
      A click on a contact. The effect keyed on the selection reseeds the log, but only when
      the selection changes: clicking the contact already selected keeps the log.
     */
    method SelectContact(c: Contact)
      modifies this
      ensures selectedContact == Some(c)
      ensures messages == if old(selectedContact) == Some(c) then old(messages) else SeedMessages()
      ensures newMessage == old(newMessage) && searchTerm == old(searchTerm)
      ensures isConfigOpen == old(isConfigOpen)
      ensures evolutionConfig == old(evolutionConfig) && isConnected == old(isConnected)
    {
      if selectedContact != Some(c) {
        selectedContact := Some(c);
        messages := SeedMessages();
      }
    }

    /** Typing in the message input. */
    method SetNewMessage(text: string)
      modifies this
      ensures newMessage == text
      ensures selectedContact == old(selectedContact) && messages == old(messages)
      ensures searchTerm == old(searchTerm) && isConfigOpen == old(isConfigOpen)
      ensures evolutionConfig == old(evolutionConfig) && isConnected == old(isConnected)
    {
      newMessage := text;
    }

    /** Typing in the search input. */
    method SetSearchTerm(text: string)
      modifies this
      ensures searchTerm == text
      ensures selectedContact == old(selectedContact) && messages == old(messages)
      ensures newMessage == old(newMessage) && isConfigOpen == old(isConfigOpen)
      ensures evolutionConfig == old(evolutionConfig) && isConnected == old(isConnected)
    {
      searchTerm := text;
    }

    /** The dialog opened or closed by the user. */
    method SetConfigOpen(open: bool)
      modifies this
      ensures isConfigOpen == open
      ensures selectedContact == old(selectedContact) && messages == old(messages)
      ensures newMessage == old(newMessage) && searchTerm == old(searchTerm)
      ensures evolutionConfig == old(evolutionConfig) && isConnected == old(isConnected)
    {
      isConfigOpen := open;
    }

    /**
      `handleSendMessage`: a local echo. When the guard lets it through, exactly one message
      is appended after the existing ones and the draft is cleared; otherwise nothing changes.
     */
    method HandleSendMessage(id: string, timeLabel: string) returns (sent: bool)
      modifies this
      ensures sent <==> old(selectedContact).Some? && !IsBlank(old(newMessage))
      ensures messages == if sent
        then old(messages) + [Message(id, old(newMessage), timeLabel, true, Sent)]
        else old(messages)
      ensures newMessage == if sent then "" else old(newMessage)
      ensures selectedContact == old(selectedContact) && searchTerm == old(searchTerm)
      ensures isConfigOpen == old(isConfigOpen)
      ensures evolutionConfig == old(evolutionConfig) && isConnected == old(isConnected)
    {
      var m := ComposeMessage(newMessage, selectedContact, id, timeLabel);
      sent := m.Some?;
      if sent {
        messages := messages + [m.value];
        newMessage := "";
      }
    }

    /**
      `handleKeyPress`: Enter without Shift suppresses the default action and sends; any
      other key changes nothing.
     */
    method HandleKeyPress(key: string, shiftKey: bool, id: string, timeLabel: string)
      returns (prevented: bool, sent: bool)
      modifies this
      ensures prevented == IsSendKey(key, shiftKey)
      ensures sent <==> prevented && old(selectedContact).Some? && !IsBlank(old(newMessage))
      ensures messages == if sent
        then old(messages) + [Message(id, old(newMessage), timeLabel, true, Sent)]
        else old(messages)
      ensures newMessage == if sent then "" else old(newMessage)
      ensures selectedContact == old(selectedContact) && searchTerm == old(searchTerm)
      ensures isConfigOpen == old(isConfigOpen)
      ensures evolutionConfig == old(evolutionConfig) && isConnected == old(isConnected)
    {
      prevented := IsSendKey(key, shiftKey);
      sent := false;
      if prevented {
        sent := HandleSendMessage(id, timeLabel);
      }
    }

    /** `handleConfigSaved`: the callback of a successful save. */
    method HandleConfigSaved(config: ApiConfig)
      modifies this
      ensures Valid()
      ensures evolutionConfig == Some(config) && isConnected && !isConfigOpen
      ensures selectedContact == old(selectedContact) && messages == old(messages)
      ensures newMessage == old(newMessage) && searchTerm == old(searchTerm)
    {
      evolutionConfig := Some(config);
      isConnected := true;
      isConfigOpen := false;
    }
  }

  /**
    Selecting one contact, another, and the first again: the first contact's log is the seed
    once more, whatever was sent to it before.
   */
  method ReselectScenario(s: Session, a: Contact, b: Contact)
    requires a != b
    modifies s
    ensures s.selectedContact == Some(a) && s.messages == SeedMessages()
    ensures s.isConnected == old(s.isConnected)
  {
    s.SelectContact(a);
    s.SelectContact(b);
    s.SelectContact(a);
  }

  /**
    A save from the settings dialog, with the dialog's `onConfigSaved` bound to the view's
    `handleConfigSaved`. Only an `ok` probe reaches the view; in every other case the view is
    as it was, though the store may already hold the new settings.
   */
  method SaveFromDialog(
    session: Session, form: EvolutionApiConfig.ConfigForm, store: LocalStorage,
    writeThrows: bool, outcome: EvolutionApiConfig.ProbeOutcome)
    returns (saved: Option<ApiConfig>)
    requires session.Valid()
    modifies session, form, store
    ensures session.Valid()
    ensures form.events == old(form.events)
      + EvolutionApiConfig.SaveTrace(old(form.config), writeThrows, outcome)
    ensures store.entries ==
      if EvolutionApiConfig.ReachesProbe(old(form.config), writeThrows)
      then old(store.entries)[ConfigKey := JsonConfig.Stringify(old(form.config))]
      else old(store.entries)
    ensures saved.Some? <==>
      EvolutionApiConfig.ReachesProbe(old(form.config), writeThrows)
      && outcome == EvolutionApiConfig.ResponseOk
    ensures if saved.Some?
      then saved.value == old(form.config) && session.evolutionConfig == saved
           && session.isConnected && !session.isConfigOpen
      else session.evolutionConfig == old(session.evolutionConfig)
           && session.isConnected == old(session.isConnected)
           && session.isConfigOpen == old(session.isConfigOpen)
    ensures session.selectedContact == old(session.selectedContact)
    ensures session.messages == old(session.messages) && session.newMessage == old(session.newMessage)
    ensures session.searchTerm == old(session.searchTerm)
    ensures form.config == old(form.config)
    ensures form.isLoading == if IsComplete(old(form.config)) then false else old(form.isLoading)
  {
    saved := form.HandleSave(store, writeThrows, outcome);
    if saved.Some? {
      session.HandleConfigSaved(saved.value);
    }
  }
}
