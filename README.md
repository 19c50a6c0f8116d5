# telegram-ssh-bot: a verified model of the menu and dispatch logic

The bot shows an operator an inline keyboard of configured hosts. Pressing a
host shows a keyboard of configured actions plus Cancel. Pressing an action
runs the configured command on that host over SSH and reports the output,
then shows the host menu again. This project models the deterministic logic
between the chat transport and the SSH client, all of it in `main.py`:

- the two-per-row keyboard layout, including the trailing row it leaves
  (`layout.dfy`, and the two builder loops in `bot.dfy`);
- the callback payloads the buttons carry and how the handler classifies a
  decoded payload into execute / action menu / cancel (`payloads.dfy`);
- the configuration sections as ordered alias/value lists and the lookups
  that can fail (`registry.dfy`);
- Python's `str.strip()` and the `out or err or 'OK'` result text
  (`output.dfy`);
- the two handlers `index` and `query_handler` as methods that return the
  sequence of effects they issue: sent messages, edited messages and the
  remote command (`bot.dfy`).

The SSH call is an input `SshOutcome`. It is either the two decoded output
streams or the message of a raised exception, and the handler consults it
only when both lookups succeed.

The model follows the code where it departs from what an operator might
expect:

- `index` has no `return` after the rejection. So a user missing from the
  allow-list gets the rejection notice and then the host menu anyway
  (`Bot.IndexEffects`).
- `query_handler` never checks the allow-list. Its execute branch runs the
  command whatever the user id is. Only the closing `index` call mentions
  the user (`Bot.QueryHandler`, `Bot.ExecutionReport`).
- The action menu is offered for any `host` value in the payload. Only the
  execute branch looks the host up.
- There is no execution history and no choice between key and password
  credentials in `main.py`, so neither is modelled.

## Model

| member | source | states |
|---|---|---|
| `Layout.TwoPerRowShape` | main.py:35-43 | the layout of n items has n/2 + 1 rows; every row but the last has exactly 2 items; the last has n % 2, so it is empty when n is even, including 0 |
| `Layout.FlattenTwoPerRow` | main.py:35-43 | reading the rows in order gives back exactly the items: none lost, duplicated or reordered |
| `Layout.TwoPerRowSnoc` | main.py:38-43 | one loop step (append to the last row, then open a new row if its length is even) extends the layout of the items so far to the layout with one more item |
| `Layout.FlattenAppend` | main.py:93-95 | appending rows (the Cancel row) appends their items after the existing ones |
| `Payloads.Classify` | main.py:55-108 | execute iff both `host` and `action` are present; action menu iff `host` is present without `action`; cancel iff `host` is absent, including `{}` and `{'action': …}` |
| `Payloads.HostPayload` | main.py:39 | the host-button payload `{'host': h}` classifies as the action menu for h |
| `Payloads.ActionPayload` | main.py:85-88 | the action-button payload `{'host': h, 'action': a}` classifies as execute of a on h |
| `Payloads.CancelPayload` | main.py:94 | the Cancel payload `{}` classifies as cancel |
| `Registry.Lookup` | main.py:57-58 | over values taken as already interpolated, `section[alias]` fails exactly when the alias is not configured; when it succeeds, the value is one configured for that alias |
| `Registry.LookupConfigured` | main.py:57-58 | with distinct aliases, looking up the k-th alias yields the k-th value |
| `Output.TrimStart` | main.py:61-62 | removing leading whitespace leaves a string that is empty or starts with a non-whitespace character |
| `Output.TrimEnd` | main.py:61-62 | removing trailing whitespace leaves a string that is empty or ends with a non-whitespace character |
| `Output.TrimStartDrops` | main.py:61-62 | what `TrimStart` keeps is a suffix of the input, and the prefix it drops is all whitespace |
| `Output.TrimEndDrops` | main.py:61-62 | what `TrimEnd` keeps is a prefix of the input, and the suffix it drops is all whitespace |
| `Output.Strip` | main.py:61-62 | the stripped stream neither starts nor ends with whitespace |
| `Output.StripSlice` | main.py:61-62 | the stripped stream is a contiguous slice of the input with only whitespace around it |
| `Output.StripTrimmed` | main.py:61-62 | stripping a string without surrounding whitespace returns it unchanged, so stripping is idempotent |
| `Output.StripEmptyIffBlank` | main.py:64 | a stream strips to the empty string exactly when it is all whitespace |
| `Output.ResultText` | main.py:64 | the reported text is never empty and has no surrounding whitespace; it is stripped stdout if that is non-empty, else stripped stderr if that is non-empty, else `OK` |
| `Output.ResultPrecedence` | main.py:61-64 | the same precedence in terms of the raw streams: stdout unless it is blank, stderr only when stdout is blank, `OK` only when both are blank |
| `Bot.NatDigits` | main.py:32 | a natural number renders as a non-empty string of decimal digits with no leading zero |
| `Bot.NatDigitsValue` | main.py:32 | the digits rendered for n denote n, so the rendering loses nothing |
| `Bot.DecimalString` | main.py:32 | the user id renders as `-` exactly when it is negative, followed by the canonical decimal digits (no leading zero) whose value is the id's magnitude |
| `Bot.HostButtons` | main.py:37-40 | one button per configured host, in order, labelled with the alias, whose payload leads to that host's action menu |
| `Bot.ActionButtons` | main.py:83-89 | one button per configured action, in order, labelled with the alias, whose payload leads to executing that action on the selected host |
| `Bot.CancelButton` | main.py:93-95 | the Cancel button's payload leads to cancel |
| `Bot.HostKeyboard` | main.py:35-43 | the builder loop produces exactly the two-per-row layout of the host buttons |
| `Bot.ActionKeyboard` | main.py:81-95 | the builder loop produces the two-per-row layout of the action buttons, followed by one row holding only Cancel |
| `Bot.HostMenuLayout` | main.py:35-43 | the host menu lists every configured host once, in order, each leading to its action menu; it has n/2 + 1 rows, full except the last, which holds n % 2 buttons |
| `Bot.ActionMenuLayout` | main.py:81-95 | the action menu has n/2 + 2 rows of at most 2 buttons; it lists every action once, in order, each leading to its execution on the host; the last row is exactly the Cancel button |
| `Bot.IndexEffects` | main.py:28-46 | an allowed user gets one message, the host menu; any other user gets the rejection notice and then the host menu too; all of them are messages sent to the chat, never an edit or a remote command |
| `Bot.Index` | main.py:28-46 | the handler issues exactly the effects of `IndexEffects` |
| `Bot.ExecutionReport` | main.py:56-76 | an unknown host alias, and then an unknown action alias, yields one error edit quoting the alias, with no remote command; otherwise it yields the configured command on the configured address, then an edit with the command and result text, or the exception's message |
| `Bot.SelectedActionRuns` | main.py:37-64 | in a configuration with distinct aliases, pressing the h-th host button and then the a-th action button runs exactly the a-th command on the h-th address, never an unknown-alias error |
| `Bot.AttemptExecution` | main.py:56-76 | the lookups, the remote call and the result edit issue exactly the effects of `ExecutionReport` |
| `Bot.QueryHandler` | main.py:53-116 | execute gives the execution report and then `index`'s effects; the action menu gives the `Host:` edit and then the action keyboard; cancel gives the `Cancelled` edit and then `index`'s effects. So execute and cancel always end with the host menu when the remote call returns, and only execute can attempt a remote command |

## Left out

- The Telegram transport (`Updater`, the handlers' registration, polling, `parse_mode`, chat and message objects) is not modelled. Sends and edits are effect records carrying the chat id, the message id, the text and the keyboard.
- The SSH client is not modelled: paramiko's connect and exec, the `AutoAddPolicy` host-key trust and the single shared client. What a connect-and-run yields is the `SshOutcome` input.
- `Bot.QueryHandler`: the remote call is assumed to return. `ssh.connect` and the stream reads at main.py:59-62 set no timeout. So a host that never answers, or a command that never exits (such as `tail -f`), blocks the handler. It then issues neither the result edit nor the closing `index`. The model has no outcome for a call that never returns.
- UTF-8 decoding of the streams is not modelled. The streams are taken already decoded, and a decoding failure counts as a `Raised` outcome.
- Reading `config.ini` is not modelled: the `int` parsing of the user list and `DEFAULT`-section inheritance. The allow-list and the two sections are given as values.
- `Registry.Lookup`: `section[alias]` applies `configparser`'s basic interpolation, which can raise, for example on a command such as `date +%s`. Inside the `try` that becomes an error edit with no connect. This is not modelled; the values are taken as already interpolated, so `Bot.ExecutionReport` does not produce that error edit.
- JSON encoding and decoding of payloads is not modelled, nor Telegram's limit on payload size. A payload is the decoded dictionary, with string values only.
- `Bot.ExecutionReport`: a failure of the result edit itself, for example Markdown the chat service rejects, would also be caught by the `except` and reported. This is not modelled, because it comes from the transport.
- `Bot.ExecutionReport`: `str(KeyError(k))` is `repr(k)`. The model renders it as `'k'`; repr escaping (quote choice, backslashes, non-printable characters) is not modelled.
- `sleep(2)` before returning to the host menu, logging, and the error handler are left out. They have no logical content.
