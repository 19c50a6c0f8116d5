/**
 * The two handlers of the bot. `Index` renders the host menu (after a
 * rejection notice for a user missing from the allow-list); `QueryHandler`
 * reacts to a pressed inline button according to its decoded payload.
 *
 * Every call to the chat transport or to the remote shell is recorded as an
 * `Effect`, and a handler returns the effects it issues, in order. What the
 * remote shell would answer is an input (`SshOutcome`): it is consulted only
 * when the handler actually reaches the remote call.
 */
module Bot {
  import opened Wrappers
  import opened Layout
  import opened Payloads
  import opened Registry
  import opened Output

  /** An inline button: its visible text and its callback payload. */
  datatype Button = Button(text: string, payload: Payload)

  type Keyboard = seq<seq<Button>>

  datatype Effect =
    | SendMessage(chat: int, text: string, markup: Option<Keyboard>)
    | EditMessageText(chat: int, messageId: int, text: string)
    | RemoteCommand(address: string, command: string)  // an attempt to connect to `address` and run `command`

  /** What connecting and running the command yields once the remote call
      returns: the two output streams, decoded, or the message of the
      exception raised. A call that never returns has no outcome here. */
  datatype SshOutcome = Completed(stdout: string, stderr: string) | Raised(message: string)

  // ---------------------------------------------------------------- texts

  /** The character of decimal digit `d`. */
  function DigitChar(d: nat): (c: char)
    requires d < 10
    ensures '0' <= c <= '9' && c as int - '0' as int == d
  {
    (48 + d) as char
  }

  predicate AllDigits(s: string)
  {
    forall k :: 0 <= k < |s| ==> '0' <= s[k] <= '9'
  }

  /** The number a string of decimal digits denotes. */
  function DigitsValue(s: string): nat
    requires AllDigits(s)
  {
    if s == [] then 0 else DigitsValue(s[..|s| - 1]) * 10 + (s[|s| - 1] as int - '0' as int)
  }

  /** Decimal digits of `n`, most significant first, without leading zeros. */
  function NatDigits(n: nat): (s: string)
    ensures |s| > 0 && AllDigits(s)
    ensures n > 0 ==> s[0] != '0'
  {
    if n < 10 then [DigitChar(n)] else NatDigits(n / 10) + [DigitChar(n % 10)]
  }

  /** The digits `NatDigits` writes denote `n`. */
  lemma {:induction false} NatDigitsValue(n: nat)
    ensures DigitsValue(NatDigits(n)) == n
  {
    var s := NatDigits(n);
    if n >= 10 {
      NatDigitsValue(n / 10);
      assert s[..|s| - 1] == NatDigits(n / 10);
    } else {
      assert s[..|s| - 1] == [];
    }
  }

  /** Python's `str(n)` for an integer: an optional minus sign, then the
      canonical decimal digits of `|n|`. */
  function DecimalString(n: int): (s: string)
    ensures |s| > 0
    ensures s[0] == '-' <==> n < 0
    ensures var digits := if n < 0 then s[1..] else s;
      digits != [] && AllDigits(digits) && DigitsValue(digits) == (if n < 0 then -n else n) &&
      (|digits| > 1 ==> digits[0] != '0')
  {
    var magnitude := if n < 0 then -n else n;
    NatDigitsValue(magnitude);
    if n < 0 then
      var s := "-" + NatDigits(magnitude);
      assert s[1..] == NatDigits(magnitude);
      s
    else NatDigits(n)
  }

  function RejectionText(userId: int): string
  {
    "User *" + DecimalString(userId) + "* is not allowed here. Sorry."
  }

  /** `str(KeyError(key))`, which is `repr(key)`, for a key that `repr`
      leaves as it is and puts in single quotes. */
  function KeyErrorText(key: string): string
  {
    "'" + key + "'"
  }

  /** The edit text for an exception raised while executing. */
  function ErrorText(message: string): string
  {
    "*Erro*r: `" + message + "`"
  }

  /** The edit text for a command that ran. */
  function ReportText(command: string, stdout: string, stderr: string): string
  {
    "`" + command + "`: `" + ResultText(stdout, stderr) + "`"
  }

  // -------------------------------------------------------------- buttons

  /** The host buttons, one per alias, each carrying `{'host': alias}`. */
  function HostButtons(hosts: seq<string>): (buttons: seq<Button>)
    ensures |buttons| == |hosts|
    ensures forall k :: 0 <= k < |hosts| ==>
      buttons[k].text == hosts[k] && Classify(buttons[k].payload) == ShowActions(hosts[k])
  {
    seq(|hosts|, k requires 0 <= k < |hosts| => Button(hosts[k], HostPayload(hosts[k])))
  }

  /** The action buttons of `host`'s menu, each carrying
      `{'host': host, 'action': alias}`. */
  function ActionButtons(host: string, actions: seq<string>): (buttons: seq<Button>)
    ensures |buttons| == |actions|
    ensures forall k :: 0 <= k < |actions| ==>
      buttons[k].text == actions[k] && Classify(buttons[k].payload) == Execute(host, actions[k])
  {
    seq(|actions|, k requires 0 <= k < |actions| => Button(actions[k], ActionPayload(host, actions[k])))
  }

  function CancelButton(): (b: Button)
    ensures Classify(b.payload) == Cancel
  {
    Button("Cancel", CancelPayload())
  }

  // ---------------------------------------------------- keyboard builders

  /** The host menu: the configured hosts laid out two per row. */
  method HostKeyboard(hosts: seq<string>) returns (keyboard: Keyboard)
    ensures keyboard == TwoPerRow(HostButtons(hosts))
  {
    keyboard := [[]];
    for i := 0 to |hosts|
      invariant keyboard == TwoPerRow(HostButtons(hosts[..i]))
    {
      var button := Button(hosts[i], HostPayload(hosts[i]));
      keyboard := keyboard[..|keyboard| - 1] + [keyboard[|keyboard| - 1] + [button]];
      if |keyboard[|keyboard| - 1]| % 2 == 0 {
        keyboard := keyboard + [[]];
      }
      assert HostButtons(hosts[..i + 1]) == HostButtons(hosts[..i]) + [button];
      TwoPerRowSnoc(HostButtons(hosts[..i]), button);
    }
    assert hosts[..|hosts|] == hosts;
  }

  /** The action menu of `host`: the configured actions laid out two per
      row, then one row holding only the Cancel button. */
  method ActionKeyboard(host: string, actions: seq<string>) returns (keyboard: Keyboard)
    ensures keyboard == TwoPerRow(ActionButtons(host, actions)) + [[CancelButton()]]
  {
    keyboard := [[]];
    for i := 0 to |actions|
      invariant keyboard == TwoPerRow(ActionButtons(host, actions[..i]))
    {
      var button := Button(actions[i], ActionPayload(host, actions[i]));
      keyboard := keyboard[..|keyboard| - 1] + [keyboard[|keyboard| - 1] + [button]];
      if |keyboard[|keyboard| - 1]| % 2 == 0 {
        keyboard := keyboard + [[]];
      }
      assert ActionButtons(host, actions[..i + 1]) == ActionButtons(host, actions[..i]) + [button];
      TwoPerRowSnoc(ActionButtons(host, actions[..i]), button);
    }
    assert actions[..|actions|] == actions;
    keyboard := keyboard + [[Button("Cancel", CancelPayload())]];
  }

  /** The host menu of a configuration. */
  function HostMenu(cfg: Config): Keyboard
  {
    TwoPerRow(HostButtons(Names(cfg.hosts)))
  }

  /** The action menu offered for `host`. */
  function ActionMenu(cfg: Config, host: string): Keyboard
  {
    TwoPerRow(ActionButtons(host, Names(cfg.commands))) + [[CancelButton()]]
  }

  /** The host menu lists every configured host exactly once, in
      configuration order, two per row with `n % 2` buttons in the last row,
      and each button's payload leads to that host's action menu. */
  lemma HostMenuLayout(cfg: Config)
    ensures Flatten(HostMenu(cfg)) == HostButtons(Names(cfg.hosts))
    ensures |HostMenu(cfg)| == |cfg.hosts| / 2 + 1
    ensures forall k :: 0 <= k < |HostMenu(cfg)| - 1 ==> |HostMenu(cfg)[k]| == 2
    ensures |HostMenu(cfg)[|HostMenu(cfg)| - 1]| == |cfg.hosts| % 2
    ensures forall k :: 0 <= k < |cfg.hosts| ==>
      Flatten(HostMenu(cfg))[k].text == cfg.hosts[k].name &&
      Classify(Flatten(HostMenu(cfg))[k].payload) == ShowActions(cfg.hosts[k].name)
  {
    FlattenTwoPerRow(HostButtons(Names(cfg.hosts)));
    TwoPerRowShape(HostButtons(Names(cfg.hosts)));
  }

  /** The action menu holds every configured action once, in order, each
      leading to its execution on `host`, laid out two per row, followed by
      exactly one row holding only Cancel. */
  lemma ActionMenuLayout(cfg: Config, host: string)
    ensures |ActionMenu(cfg, host)| == |cfg.commands| / 2 + 2
    ensures ActionMenu(cfg, host)[|ActionMenu(cfg, host)| - 1] == [CancelButton()]
    ensures forall k :: 0 <= k < |ActionMenu(cfg, host)| ==> |ActionMenu(cfg, host)[k]| <= 2
    ensures Flatten(ActionMenu(cfg, host)) == ActionButtons(host, Names(cfg.commands)) + [CancelButton()]
    ensures forall k :: 0 <= k < |cfg.commands| ==>
      Flatten(ActionMenu(cfg, host))[k].text == cfg.commands[k].name &&
      Classify(Flatten(ActionMenu(cfg, host))[k].payload) == Execute(host, cfg.commands[k].name)
  {
    var buttons := ActionButtons(host, Names(cfg.commands));
    FlattenTwoPerRow(buttons);
    TwoPerRowShape(buttons);
    FlattenAppend(TwoPerRow(buttons), [[CancelButton()]]);
    assert Flatten([[CancelButton()]]) == [CancelButton()] + Flatten<Button>([]);
  }

  // ------------------------------------------------------------- handlers

  /** Specification of `Index`: the rejection notice for a user missing from
      the allow-list, then, in every case, the host menu. */
  function IndexEffects(cfg: Config, userId: int, chatId: int): (effects: seq<Effect>)
    ensures |effects| == if userId in cfg.users then 1 else 2
    ensures effects[|effects| - 1] == SendMessage(chatId, "Please choose a host:", Some(HostMenu(cfg)))
    ensures userId !in cfg.users ==> effects[0] == SendMessage(chatId, RejectionText(userId), None)
    ensures forall e :: e in effects ==> e.SendMessage? && e.chat == chatId
  {
    var menu := [SendMessage(chatId, "Please choose a host:", Some(HostMenu(cfg)))];
    if userId in cfg.users then menu else [SendMessage(chatId, RejectionText(userId), None)] + menu
  }

  /** `index`: there is no return after the rejection, so an unauthorised
      user is shown the host menu too. */
  method Index(cfg: Config, userId: int, chatId: int) returns (effects: seq<Effect>)
    ensures effects == IndexEffects(cfg, userId, chatId)
  {
    effects := [];
    if userId !in cfg.users {
      effects := effects + [SendMessage(chatId, RejectionText(userId), None)];
    }
    var keyboard := HostKeyboard(Names(cfg.hosts));
    effects := effects + [SendMessage(chatId, "Please choose a host:", Some(keyboard))];
  }

  /** Specification of the `try` block of the execute branch: look up the
      host's address and the action's command, run it, and report either
      the normalised output or the exception's message in an edit. */
  function ExecutionReport(cfg: Config, host: string, action: string, chatId: int, messageId: int,
                           ssh: SshOutcome): (effects: seq<Effect>)
    ensures host !in Names(cfg.hosts) ==>
      effects == [EditMessageText(chatId, messageId, ErrorText(KeyErrorText(host)))]
    ensures host in Names(cfg.hosts) && action !in Names(cfg.commands) ==>
      effects == [EditMessageText(chatId, messageId, ErrorText(KeyErrorText(action)))]
    ensures host in Names(cfg.hosts) && action in Names(cfg.commands) ==>
      |effects| == 2 && effects[0].RemoteCommand? &&
      Entry(host, effects[0].address) in cfg.hosts && Entry(action, effects[0].command) in cfg.commands &&
      effects[1] == EditMessageText(chatId, messageId,
        match ssh
        case Completed(out, err) => ReportText(effects[0].command, out, err)
        case Raised(message) => ErrorText(message))
  {
    match Lookup(cfg.hosts, host)
    case None => [EditMessageText(chatId, messageId, ErrorText(KeyErrorText(host)))]
    case Some(address) =>
      match Lookup(cfg.commands, action)
      case None => [EditMessageText(chatId, messageId, ErrorText(KeyErrorText(action)))]
      case Some(command) =>
        var text := match ssh
          case Completed(out, err) => ReportText(command, out, err)
          case Raised(message) => ErrorText(message);
        [RemoteCommand(address, command), EditMessageText(chatId, messageId, text)]
  }

  /** Pressing an action button of a host button's menu, in a well-formed
      configuration, runs exactly the configured command on exactly the
      configured address; nothing is rejected as an unknown alias. */
  lemma SelectedActionRuns(cfg: Config, h: nat, a: nat, chatId: int, messageId: int, ssh: SshOutcome)
    requires WellFormed(cfg) && h < |cfg.hosts| && a < |cfg.commands|
    ensures |Flatten(HostMenu(cfg))| == |cfg.hosts| &&
      Classify(Flatten(HostMenu(cfg))[h].payload).ShowActions? &&
      var host := Classify(Flatten(HostMenu(cfg))[h].payload).host;
      |Flatten(ActionMenu(cfg, host))| == |cfg.commands| + 1 &&
      var pressed := Flatten(ActionMenu(cfg, host))[a].payload;
      Classify(pressed).Execute? &&
      var effects := ExecutionReport(cfg, Classify(pressed).host, Classify(pressed).action, chatId, messageId, ssh);
      |effects| == 2 && effects[0] == RemoteCommand(cfg.hosts[h].value, cfg.commands[a].value)
  {
    HostMenuLayout(cfg);
    ActionMenuLayout(cfg, cfg.hosts[h].name);
    LookupConfigured(cfg.hosts, h);
    LookupConfigured(cfg.commands, a);
  }

  /** The `try`/`except` block of the execute branch: look up the address
      and the command, run the command, and edit the message with the
      normalised result or with the message of the exception raised. */
  method AttemptExecution(cfg: Config, host: string, action: string, chatId: int, messageId: int,
                          ssh: SshOutcome) returns (effects: seq<Effect>)
    ensures effects == ExecutionReport(cfg, host, action, chatId, messageId, ssh)
  {
    effects := [];
    var report: string;
    var address := Lookup(cfg.hosts, host);
    if address.None? {
      report := ErrorText(KeyErrorText(host));
    } else {
      var command := Lookup(cfg.commands, action);
      if command.None? {
        report := ErrorText(KeyErrorText(action));
      } else {
        effects := effects + [RemoteCommand(address.value, command.value)];
        match ssh {
          case Completed(out, err) => report := ReportText(command.value, out, err);
          case Raised(message) => report := ErrorText(message);
        }
      }
    }
    effects := effects + [EditMessageText(chatId, messageId, report)];
  }

  /** `query_handler`: dispatch on the decoded payload. */
  method QueryHandler(cfg: Config, userId: int, chatId: int, messageId: int, data: Payload, ssh: SshOutcome)
    returns (effects: seq<Effect>)
    ensures Classify(data).Execute? ==>
      effects == ExecutionReport(cfg, Classify(data).host, Classify(data).action, chatId, messageId, ssh) +
        IndexEffects(cfg, userId, chatId)
    ensures Classify(data).ShowActions? ==>
      effects == [EditMessageText(chatId, messageId, "Host: *" + Classify(data).host + "*"),
                  SendMessage(chatId, "Please choose an action:", Some(ActionMenu(cfg, Classify(data).host)))]
    ensures Classify(data).Cancel? ==>
      effects == [EditMessageText(chatId, messageId, "*Cancelled*")] + IndexEffects(cfg, userId, chatId)
  {
    effects := [];
    match Classify(data) {
      case Execute(host, action) =>
        var attempt := AttemptExecution(cfg, host, action, chatId, messageId, ssh);
        effects := effects + attempt;
        var menu := Index(cfg, userId, chatId);
        effects := effects + menu;
      case ShowActions(host) =>
        var keyboard := ActionKeyboard(host, Names(cfg.commands));
        effects := effects + [EditMessageText(chatId, messageId, "Host: *" + host + "*")];
        effects := effects + [SendMessage(chatId, "Please choose an action:", Some(keyboard))];
      case Cancel =>
        effects := effects + [EditMessageText(chatId, messageId, "*Cancelled*")];
        var menu := Index(cfg, userId, chatId);
        effects := effects + menu;
    }
  }
}
