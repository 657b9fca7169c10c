/** The processor's command endpoint (pkg/api/processor.go): the dispatch of a request's
    command to its handler, the response each handler produces, the `cat` command that lists
    the registered state stores, and this package's own store registry.

    The request arrives already decoded: reading and decoding the body, the JSON encoding of
    the response and the `/metrics` path are transport and are not modelled. A handler's
    outcome enters the dispatch as a parameter: what `core.Initialize`, `core.Run` and `cat`
    return is stated by the `Core.Engine` methods and by `Cat` below. */
module ApiProcessor {
  import opened Base
  import opened StateStore

  // ---------------------------------------------------------------------------------------
  // Commands and responses

  const InitializeCommand: string := "initialize"
  const RunCommand: string := "run"
  const ExitCommand: string := "exit"
  const PingCommand: string := "ping"
  const CatCommand: string := "cat"

  /** One entry of a `cat` listing: a key and the bytes stored under it. */
  datatype Entry = Entry(key: string, val: seq<byte>)

  /** The message a response carries: none, a text, or a `cat` listing (sent as JSON). */
  datatype Message = NoMessage | Text(text: string) | Listing(stores: map<string, seq<Entry>>)

  /** The body written back: a success with its message, or a failure with its error. */
  datatype InvokerResponse = Success(message: Message) | Failure(err: Error)

  /** Where `ProcessorHandle` sends a command. */
  datatype Route = ToInitialize | ToRun | ToCat | ToPing | MissingCommand | Unrecognized

  /** The handler `ProcessorHandle` picks for a command. `exit` is declared among the
      commands but has no case, so it is unrecognized. */
  function RouteOf(command: string): Route {
    if command == "" then MissingCommand
    else if command == InitializeCommand then ToInitialize
    else if command == PingCommand then ToPing
    else if command == RunCommand then ToRun
    else if command == CatCommand then ToCat
    else Unrecognized
  }

  /** The command name a handled route answers to. */
  function CommandOf(r: Route): string
    requires r != MissingCommand && r != Unrecognized
  {
    match r
    case ToInitialize => InitializeCommand
    case ToRun => RunCommand
    case ToCat => CatCommand
    case ToPing => PingCommand
  }

  /** Exactly four command names are handled, each by its own handler; the empty command is
      missing; every other name, `exit` included, is unrecognized. */
  lemma {:induction false} RoutesAreExact(command: string)
    ensures RouteOf(command) == MissingCommand <==> command == ""
    ensures RouteOf(command) != MissingCommand && RouteOf(command) != Unrecognized ==>
      CommandOf(RouteOf(command)) == command
    ensures RouteOf(command) == Unrecognized <==>
      command !in {"", InitializeCommand, RunCommand, PingCommand, CatCommand}
    ensures RouteOf(ExitCommand) == Unrecognized
  {
    assert ExitCommand != InitializeCommand && ExitCommand != RunCommand;
    assert ExitCommand != PingCommand && ExitCommand != CatCommand;
  }

  /** `handleInitialize`: a params decoding failure, then `core.Initialize`'s error, each
      wrapped (a panic passes through unwrapped); otherwise an empty success. */
  function HandleInitialize(paramsErr: Option<Error>, initErr: Option<Error>): (r: Result<InvokerResponse>)
    ensures r.Ok? <==> paramsErr.None? && initErr.None?
    ensures r.Ok? ==> r.value == Success(NoMessage)
    ensures paramsErr.Some? ==> r == Err(Wrapped("unmarshal params failed", paramsErr.value))
    ensures paramsErr.None? && initErr.Some? ==> r == Err(Wrap("Initialize failed", initErr.value))
  {
    if paramsErr.Some? then Err(Wrapped("unmarshal params failed", paramsErr.value))
    else if initErr.Some? then Err(Wrap("Initialize failed", initErr.value))
    else Ok(Success(NoMessage))
  }

  /** `handleRun`: `core.Run`'s error, wrapped, or an empty success. A panic in `core.Run`
      (its config check) passes through unwrapped. */
  function HandleRun(runErr: Option<Error>): (r: Result<InvokerResponse>)
    ensures r.Ok? <==> runErr.None?
    ensures r.Ok? ==> r.value == Success(NoMessage)
    ensures runErr.Some? ==> r.error == Wrap("Run failed", runErr.value)
  {
    if runErr.Some? then Err(Wrap("Run failed", runErr.value)) else Ok(Success(NoMessage))
  }

  /** `handleCat`: `cat`'s error, wrapped, or its listing as the message. */
  function HandleCat(listing: Result<map<string, seq<Entry>>>): (r: Result<InvokerResponse>)
    ensures r.Ok? <==> listing.Ok?
    ensures r.Ok? ==> r.value == Success(Listing(listing.value))
    ensures listing.Err? ==> r.error == Wrap("cat failed", listing.error)
  {
    match listing
    case Err(e) => Err(Wrap("cat failed", e))
    case Ok(m) => Ok(Success(Listing(m)))
  }

  /** The body `ProcessorHandle` writes for a decoded request. `paramsErr` and `initErr` are
      what decoding the parameters and `core.Initialize` give, `runErr` what `core.Run`
      gives, `listing` what `cat` gives; only the routed handler's outcome is read. */
  function ProcessorReply(command: string, paramsErr: Option<Error>, initErr: Option<Error>,
                          runErr: Option<Error>, listing: Result<map<string, seq<Entry>>>): InvokerResponse
  {
    var handled := match RouteOf(command)
      case ToInitialize => HandleInitialize(paramsErr, initErr)
      case ToRun => HandleRun(runErr)
      case ToCat => HandleCat(listing)
      case ToPing => Ok(Success(Text("pong")))
      case MissingCommand => Err(Failed("request command is missing"))
      case Unrecognized => Err(Failed("unrecognized command " + command));
    match RouteOf(command)
    case MissingCommand | Unrecognized => Failure(handled.error)
    case _ =>
      if handled.Err? then Failure(Wrap("handle processor command failed", handled.error))
      else handled.value
  }

  /** What the endpoint answers: `ping` always succeeds with "pong"; an empty or unknown
      command fails with its own error; a handled command succeeds exactly when its handler
      does, and its failure is the handler's error wrapped once more, or, for a panic, the
      panic as the deferred `recover` catches it. */
  lemma {:induction false} ReplyByRoute(command: string, paramsErr: Option<Error>, initErr: Option<Error>,
                                        runErr: Option<Error>, listing: Result<map<string, seq<Entry>>>)
    ensures var r := ProcessorReply(command, paramsErr, initErr, runErr, listing);
      && (command == PingCommand ==> r == Success(Text("pong")))
      && (command == "" ==> r == Failure(Failed("request command is missing")))
      && (RouteOf(command) == Unrecognized ==> r == Failure(Failed("unrecognized command " + command)))
      && (command == ExitCommand ==> r == Failure(Failed("unrecognized command " + ExitCommand)))
      && (command == RunCommand ==>
            r == if runErr.None? then Success(NoMessage)
                 else if runErr.value.Panic? then Failure(runErr.value)
                 else Failure(Wrapped("handle processor command failed", Wrapped("Run failed", runErr.value))))
      && (command == CatCommand ==>
            r == if listing.Ok? then Success(Listing(listing.value))
                 else if listing.error.Panic? then Failure(listing.error)
                 else Failure(Wrapped("handle processor command failed", Wrapped("cat failed", listing.error))))
      && (command == InitializeCommand ==>
            (r.Success? <==> paramsErr.None? && initErr.None?))
  {
    RoutesAreExact(command);
  }

  /** The reply to a command depends only on the outcome of the handler it is routed to. */
  lemma {:induction false} ReplyReadsOnlyRoutedHandler(command: string,
      paramsErr: Option<Error>, initErr: Option<Error>, runErr: Option<Error>, listing: Result<map<string, seq<Entry>>>,
      paramsErr': Option<Error>, initErr': Option<Error>, runErr': Option<Error>, listing': Result<map<string, seq<Entry>>>)
    requires RouteOf(command) == ToInitialize ==> paramsErr == paramsErr' && initErr == initErr'
    requires RouteOf(command) == ToRun ==> runErr == runErr'
    requires RouteOf(command) == ToCat ==> listing == listing'
    ensures ProcessorReply(command, paramsErr, initErr, runErr, listing) ==
            ProcessorReply(command, paramsErr', initErr', runErr', listing')
  {
  }

  // ---------------------------------------------------------------------------------------
  // cat

  /** The entries of `keys[i..]`, appended to `acc`: `Get` for each key in order, the first
      error ending the listing. */
  function EntriesFrom(v: StoreView, keys: seq<string>, i: nat, acc: seq<Entry>): Result<seq<Entry>>
    requires i <= |keys|
    decreases |keys| - i
  {
    if i == |keys| then Ok(acc)
    else match ViewGet(v, keys[i])
      case Err(e) => Err(e)
      case Ok(val) => EntriesFrom(v, keys, i + 1, acc + [Entry(keys[i], val)])
  }

  /** One store's part of `cat`: its first `DefaultCatLimit` keys, each with its value. */
  function StoreListing(v: StoreView): Result<seq<Entry>> {
    match ViewKeys(v, DefaultCatLimit)
    case Err(e) => Err(e)
    case Ok(keys) => EntriesFrom(v, keys, 0, [])
  }

  /** `cat` over the stores named `order[i..]`, added to `acc`: the first failing store ends
      it with its error. */
  function CatFrom(views: map<string, StoreView>, order: seq<string>, i: nat, acc: map<string, seq<Entry>>): Result<map<string, seq<Entry>>>
    requires i <= |order|
    requires forall k | 0 <= k < |order| :: order[k] in views
    decreases |order| - i
  {
    if i == |order| then Ok(acc)
    else match StoreListing(views[order[i]])
      case Err(e) => Err(e)
      case Ok(entries) => CatFrom(views, order, i + 1, acc[order[i] := entries])
  }

  /** The listing succeeds iff every key's `Get` does; it then pairs every key, in order, with
      its stored value. Otherwise it fails with the error of the first key whose `Get` fails,
      a miss included. */
  lemma {:induction false} EntriesAreTheKeys(v: StoreView, keys: seq<string>, i: nat, acc: seq<Entry>)
    requires i <= |keys|
    ensures var r := EntriesFrom(v, keys, i, acc);
      && (r.Ok? <==> forall k | i <= k < |keys| :: ViewGet(v, keys[k]).Ok?)
      && (r.Ok? ==>
            && |r.value| == |acc| + |keys| - i && r.value[..|acc|] == acc
            && forall k | i <= k < |keys| :: r.value[|acc| + k - i] == Entry(keys[k], v.data[keys[k]]))
      && (r.Err? ==>
            exists k | i <= k < |keys| ::
              && ViewGet(v, keys[k]) == Err(r.error)
              && forall j | i <= j < k :: ViewGet(v, keys[j]).Ok?)
    decreases |keys| - i
  {
    if i < |keys| {
      var g := ViewGet(v, keys[i]);
      if g.Ok? {
        var acc' := acc + [Entry(keys[i], g.value)];
        EntriesAreTheKeys(v, keys, i + 1, acc');
        var r := EntriesFrom(v, keys, i + 1, acc');
        if r.Ok? {
          assert r.value[..|acc|] == r.value[..|acc'|][..|acc|];
          assert r.value[|acc|] == acc'[|acc|];
        }
      }
    }
  }

  /** `cat` succeeds iff every store's listing does; otherwise it fails with the error of the
      first store, in visiting order, whose listing fails. */
  lemma {:induction false} CatFailsAtFirstStore(views: map<string, StoreView>, order: seq<string>, i: nat,
                                                acc: map<string, seq<Entry>>)
    requires i <= |order|
    requires forall k | 0 <= k < |order| :: order[k] in views
    ensures var r := CatFrom(views, order, i, acc);
      && (r.Ok? <==> forall k | i <= k < |order| :: StoreListing(views[order[k]]).Ok?)
      && (r.Err? ==>
            exists k | i <= k < |order| ::
              && StoreListing(views[order[k]]) == Err(r.error)
              && forall j | i <= j < k :: StoreListing(views[order[j]]).Ok?)
    decreases |order| - i
  {
    if i < |order| {
      var s := StoreListing(views[order[i]]);
      if s.Ok? {
        CatFailsAtFirstStore(views, order, i + 1, acc[order[i] := s.value]);
      }
    }
  }

  /** A successful `cat` holds an entry for every store visited, and keeps what it started
      with: each visited store's entry is that store's listing. */
  lemma {:induction false} CatListsEveryStore(views: map<string, StoreView>, order: seq<string>, i: nat,
                                              acc: map<string, seq<Entry>>)
    requires i <= |order|
    requires forall k | 0 <= k < |order| :: order[k] in views
    requires CatFrom(views, order, i, acc).Ok?
    ensures var m := CatFrom(views, order, i, acc).value;
      && (forall n :: n in m <==> n in acc || n in order[i..])
      && (forall n | n in order[i..] :: StoreListing(views[n]) == Ok(m[n]))
      && (forall n | n in acc && n !in order[i..] :: m[n] == acc[n])
    decreases |order| - i
  {
    if i < |order| {
      var s := StoreListing(views[order[i]]);
      CatListsEveryStore(views, order, i + 1, acc[order[i] := s.value]);
      assert order[i..] == [order[i]] + order[i + 1..];
    }
  }

  /** A successful `cat` over a registry visited in some order has exactly one entry per
      registered store name. */
  lemma {:induction false} CatHasOneEntryPerStore(views: map<string, StoreView>, order: seq<string>)
    requires Enumerates(order, views)
    requires CatFrom(views, order, 0, map[]).Ok?
    ensures CatFrom(views, order, 0, map[]).value.Keys == views.Keys
    ensures forall n | n in views ::
      StoreListing(views[n]).Ok? && CatFrom(views, order, 0, map[]).value[n] == StoreListing(views[n]).value
  {
    CatListsEveryStore(views, order, 0, map[]);
    assert order[0..] == order;
  }

  /** On a well-formed store, a listing holds the store's first `DefaultCatLimit` keys in
      listing order, each with its value; it fails only when `Keys` fails or one of those
      keys fails. */
  lemma {:induction false} StoreListingOfValidStore(v: StoreView)
    requires ViewValid(v)
    ensures var r := StoreListing(v);
      var n := if |v.listing| < DefaultCatLimit then |v.listing| else DefaultCatLimit;
      && (r.Ok? <==> !v.keysFail && forall k | 0 <= k < n :: v.listing[k] !in v.failing)
      && (r.Ok? ==> |r.value| == n && forall k | 0 <= k < n :: r.value[k] == Entry(v.listing[k], v.data[v.listing[k]]))
  {
    var keys := ViewKeys(v, DefaultCatLimit);
    if keys.Ok? {
      EntriesAreTheKeys(v, keys.value, 0, []);
      var n := if |v.listing| < DefaultCatLimit then |v.listing| else DefaultCatLimit;
      assert |keys.value| == n;
      forall k | 0 <= k < n ensures keys.value[k] == v.listing[k] && v.listing[k] in v.data {
        assert v.listing[k] in v.listing;
      }
    }
  }

  /** The views of the registered stores. */
  function ViewsOf(reg: Registry): map<string, StoreView>
    reads reg, reg.stores.Values
  {
    map n | n in reg.stores :: reg.stores[n].View()
  }

  /** `cat`. `order` is the order in which the registry is visited. */
  method Cat(reg: Registry, order: seq<string>) returns (r: Result<map<string, seq<Entry>>>)
    requires Enumerates(order, reg.stores)
    ensures r == CatFrom(ViewsOf(reg), order, 0, map[])
  {
    ghost var views := ViewsOf(reg);
    var resp: map<string, seq<Entry>> := map[];
    for i := 0 to |order|
      invariant CatFrom(views, order, 0, map[]) == CatFrom(views, order, i, resp)
    {
      var store := reg.stores[order[i]];
      var keys := store.Keys(DefaultCatLimit);
      if keys.Err? {
        return Err(keys.error);
      }
      var entries := CatEntries(store, keys.value);
      if entries.Err? {
        return Err(entries.error);
      }
      resp := resp[order[i] := entries.value];
    }
    return Ok(resp);
  }

  /** The inner loop of `cat`: `Get` for each listed key. */
  method CatEntries(store: MapStore, keys: seq<string>) returns (r: Result<seq<Entry>>)
    ensures r == EntriesFrom(store.View(), keys, 0, [])
  {
    var entries: seq<Entry> := [];
    for j := 0 to |keys|
      invariant EntriesFrom(store.View(), keys, 0, []) == EntriesFrom(store.View(), keys, j, entries)
    {
      var val := store.Get(keys[j]);
      if val.Err? {
        return Err(val.error);
      }
      entries := entries + [Entry(keys[j], val.value)];
    }
    return Ok(entries);
  }
}
