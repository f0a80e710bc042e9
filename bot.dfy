/**
 * bot.py: the user-agreement gate in front of the document handler. A per-user
 * flag in `context.user_data` records acceptance; a ConversationHandler (group 0)
 * keeps each user in AGREEMENT, HANDLE_PDF or no conversation; a second PDF
 * handler in group 1 forwards documents from users who have accepted.
 *
 * The routing follows python-telegram-bot's dispatch rules: within a group the
 * first handler that matches an update handles it, and every group is tried in
 * turn. A ConversationHandler tries its entry points only outside a conversation,
 * inside one the current state's handlers and then the fallbacks.
 */
module Bot {
  import opened Wrappers
  import DocumentHandler

  type UserId = int

  const AcceptData := "agreement_accept"
  const DeclineData := "agreement_decline"

  // Reply texts.
  const WelcomeBackText := "Добро пожаловать! Вы уже приняли пользовательское соглашение.\nВы можете загрузить PDF-файл для анализа."
  const AgreementText := "Добро пожаловать в Telegram Case Bot!\n\nПеред использованием бота, пожалуйста, ознакомьтесь и примите пользовательское соглашение.\nОсновные положения:\n1. Бот предназначен для анализа политических кейсов в формате PDF.\n2. Загружая документ, вы подтверждаете, что имеете право на его использование и анализ.\n3. Анализ предоставляется с помощью AI и носит рекомендательный характер.\n4. Мы не храним ваши документы после обработки (они удаляются).\n5. Мы стремимся обеспечить конфиденциальность, но не несем ответственности за утечки данных из-за действий третьих лиц или уязвимостей вне нашего контроля.\n\nНажимая 'Принять', вы соглашаетесь с этими условиями."
  const AcceptedText := "Спасибо! Вы приняли пользовательское соглашение.\nТеперь вы можете загружать PDF-файлы для анализа."
  const DeclinedText := "Вы отклонили пользовательское соглашение. К сожалению, вы не можете использовать бот без его принятия.\nЕсли передумаете, просто введите /start снова."
  const AcceptFirstText := "Пожалуйста, сначала примите пользовательское соглашение, введя команду /start."
  const HelpText := "Этот бот помогает анализировать политические кейсы в формате PDF.\n1. Введите /start, чтобы начать и принять пользовательское соглашение.\n2. После принятия соглашения, просто отправьте PDF-файл в чат.\n3. Бот проанализирует документ и пришлет вам отчет.\n\nДоступные команды:\n/start - Начать работу с ботом и принять соглашение.\n/help - Показать это сообщение.\n/cancel - Отменить текущую операцию (если применимо)."
  const CancelledText := "Операция отменена. Введите /start, чтобы начать заново."

  /** The conversation states; a user with no entry is in no conversation (END). */
  datatype ConvState = Agreement | HandlePdf

  /** What a conversation callback returns: a state, END, or `None` (stay). */
  datatype Next = Goto(state: ConvState) | End | Stay

  /** A message the bot sends (the two agreement answers edit the prompt message). */
  datatype BotReply = WelcomeBack | AgreementPrompt | Accepted | Declined | AcceptFirst | Help | Cancelled

  /** The inline keyboard under the agreement: button label and callback data. */
  const Keyboard := [("✅ Принять (Accept)", AcceptData), ("❌ Отклонить (Decline)", DeclineData)]

  function BotText(r: BotReply): string {
    match r
    case WelcomeBack => WelcomeBackText
    case AgreementPrompt => AgreementText
    case Accepted => AcceptedText
    case Declined => DeclinedText
    case AcceptFirst => AcceptFirstText
    case Help => HelpText
    case Cancelled => CancelledText
  }

  /** An incoming update. `pdf` is the `filters.Document.PDF` test (the MIME type),
      `edited` marks an edited message. */
  datatype Update =
    | Command(user: UserId, name: string)
    | Callback(user: UserId, data: string)
    | DocumentMessage(user: UserId, upload: DocumentHandler.Upload, pdf: bool, edited: bool)
    | OtherMessage(user: UserId)

  /** `filters.Document.PDF & ~filters.UpdateType.EDITED_MESSAGE`. */
  predicate IsFreshPdf(u: Update) {
    u.DocumentMessage? && u.pdf && !u.edited
  }

  /** Everything the gate keeps or produces: who has the flag, where each user is in
      the conversation, what was sent, and which documents reached `handle_document`. */
  datatype Chat = Chat(accepted: set<UserId>, conversation: map<UserId, ConvState>,
                       outbox: seq<(UserId, BotReply)>, handled: seq<(UserId, DocumentHandler.Upload)>)

  /** The conversation state after a callback returns `next`. */
  function Advance(conversation: map<UserId, ConvState>, user: UserId, next: Next): map<UserId, ConvState> {
    match next
    case Goto(s) => conversation[user := s]
    case End => conversation - {user}
    case Stay => conversation
  }

  function Say(c: Chat, user: UserId, r: BotReply): Chat {
    c.(outbox := c.outbox + [(user, r)])
  }

  /** `start_command`. */
  function Start(c: Chat, user: UserId): (r: (Chat, Next))
    ensures r.0.accepted == c.accepted && r.0.handled == c.handled
    ensures r.1.Goto? && |r.0.outbox| == |c.outbox| + 1
  {
    if user in c.accepted then (Say(c, user, WelcomeBack), Goto(HandlePdf))
    else (Say(c, user, AgreementPrompt), Goto(Agreement))
  }

  /** `agreement_callback`. */
  function AgreementAnswer(c: Chat, user: UserId, data: string): (r: (Chat, Next))
    ensures c.accepted <= r.0.accepted <= c.accepted + {user}
    ensures user in r.0.accepted <==> user in c.accepted || data == AcceptData
  {
    if data == AcceptData then (Say(c.(accepted := c.accepted + {user}), user, Accepted), Goto(HandlePdf))
    else (Say(c, user, Declined), End)
  }

  /** `cancel_command`. */
  function Cancel(c: Chat, user: UserId): (r: (Chat, Next))
    ensures user !in r.0.accepted && forall other | other != user :: other in r.0.accepted <==> other in c.accepted
    ensures r.1 == End && r.0.handled == c.handled
  {
    (Say(c, user, Cancelled).(accepted := c.accepted - {user}), End)
  }

  /** `handle_document`, as far as the gate is concerned: the call itself. */
  function Forward(c: Chat, user: UserId, upload: DocumentHandler.Upload): Chat {
    c.(handled := c.handled + [(user, upload)])
  }

  /** `independent_pdf_handler`: forward when the flag is set, else ask for acceptance. */
  function Independent(c: Chat, user: UserId, upload: DocumentHandler.Upload): (r: Chat)
    ensures r.handled != c.handled <==> user in c.accepted
    ensures r.accepted == c.accepted && r.conversation == c.conversation
  {
    if user in c.accepted then Forward(c, user, upload) else Say(c, user, AcceptFirst)
  }

  /** The callback the ConversationHandler picks for an update. */
  datatype Route = RouteStart | RouteAnswer | RouteCancel | RouteDocument

  function Fallback(u: Update): Option<Route> {
    if u.Command? && u.name == "cancel" then Some(RouteCancel)
    else if u.Command? && u.name == "start" then Some(RouteStart)
    else None
  }

  function ConversationRoute(conversation: map<UserId, ConvState>, u: Update): Option<Route> {
    if u.user !in conversation then
      if u.Command? && u.name == "start" then Some(RouteStart) else None
    else
      match conversation[u.user]
      case Agreement => if u.Callback? then Some(RouteAnswer) else Fallback(u)
      case HandlePdf => if IsFreshPdf(u) then Some(RouteDocument) else Fallback(u)
  }

  /** Group 0: the ConversationHandler, then the /help handler. The flag says whether
      some handler of the group took the update. */
  function GroupZero(c: Chat, u: Update): (r: (Chat, bool))
    ensures !r.1 ==> r.0 == c
  {
    match ConversationRoute(c.conversation, u)
    case Some(route) =>
      var (c', next) :=
        match route
        case RouteStart => Start(c, u.user)
        case RouteAnswer => AgreementAnswer(c, u.user, u.data)
        case RouteCancel => Cancel(c, u.user)
        case RouteDocument => (Forward(c, u.user, u.upload), Stay);
      (c'.(conversation := Advance(c'.conversation, u.user, next)), true)
    case None =>
      if u.Command? && u.name == "help" then (Say(c, u.user, Help), true) else (c, false)
  }

  /** One update through both groups, as bot.py registers them: group 1 sees every
      fresh PDF, whether or not group 0 took it. */
  function Step(c: Chat, u: Update): Chat {
    var (c', _) := GroupZero(c, u);
    if IsFreshPdf(u) then Independent(c', u.user, u.upload) else c'
  }

  /** The routing the comment above the group-1 handler describes: it runs only for
      documents the ConversationHandler did not take. */
  function StepCorrected(c: Chat, u: Update): Chat {
    var (c', taken) := GroupZero(c, u);
    if IsFreshPdf(u) && !taken then Independent(c', u.user, u.upload) else c'
  }

  /** The bot's per-user data and conversations, and what it has sent and forwarded. */
  class TelegramBot {
    var accepted: set<UserId>
    var conversation: map<UserId, ConvState>
    var outbox: seq<(UserId, BotReply)>
    var handled: seq<(UserId, DocumentHandler.Upload)>

    function Snapshot(): Chat
      reads this
    {
      Chat(accepted, conversation, outbox, handled)
    }

    constructor()
      ensures Snapshot() == Chat({}, map[], [], [])
    {
      accepted := {};
      conversation := map[];
      outbox := [];
      handled := [];
    }

    method Reply(user: UserId, r: BotReply)
      modifies this
      ensures Snapshot() == Say(old(Snapshot()), user, r)
    {
      outbox := outbox + [(user, r)];
    }

    method StartCommand(user: UserId) returns (next: Next)
      modifies this
      ensures (Snapshot(), next) == Start(old(Snapshot()), user)
    {
      if user in accepted {
        Reply(user, WelcomeBack);
        return Goto(HandlePdf);
      }
      Reply(user, AgreementPrompt);
      return Goto(Agreement);
    }

    method AgreementCallback(user: UserId, data: string) returns (next: Next)
      modifies this
      ensures (Snapshot(), next) == AgreementAnswer(old(Snapshot()), user, data)
    {
      if data == AcceptData {
        accepted := accepted + {user};
        Reply(user, Accepted);
        return Goto(HandlePdf);
      } else {
        Reply(user, Declined);
        return End;
      }
    }

    method CancelCommand(user: UserId) returns (next: Next)
      modifies this
      ensures (Snapshot(), next) == Cancel(old(Snapshot()), user)
    {
      Reply(user, Cancelled);
      if user in accepted {
        accepted := accepted - {user};
      } else {
        assert accepted - {user} == accepted;
      }
      return End;
    }

    method AgreementDeclinedDirectUpload(user: UserId)
      modifies this
      ensures Snapshot() == Say(old(Snapshot()), user, AcceptFirst)
    {
      Reply(user, AcceptFirst);
    }

    method HandleDocument(user: UserId, upload: DocumentHandler.Upload)
      modifies this
      ensures Snapshot() == Forward(old(Snapshot()), user, upload)
    {
      handled := handled + [(user, upload)];
    }

    method IndependentPdfHandler(user: UserId, upload: DocumentHandler.Upload)
      modifies this
      ensures Snapshot() == Independent(old(Snapshot()), user, upload)
    {
      if user !in accepted {
        AgreementDeclinedDirectUpload(user);
      } else {
        HandleDocument(user, upload);
      }
    }

    /** Group 0; `taken` tells whether one of its handlers took the update. */
    method DispatchGroupZero(u: Update) returns (taken: bool)
      modifies this
      ensures (Snapshot(), taken) == GroupZero(old(Snapshot()), u)
    {
      var route := ConversationRoute(conversation, u);
      if route.None? {
        if u.Command? && u.name == "help" {
          Reply(u.user, Help);
          return true;
        }
        return false;
      }
      var next: Next;
      match route.value {
        case RouteStart => next := StartCommand(u.user);
        case RouteAnswer => next := AgreementCallback(u.user, u.data);
        case RouteCancel => next := CancelCommand(u.user);
        case RouteDocument =>
          HandleDocument(u.user, u.upload);
          next := Stay;
      }
      conversation := Advance(conversation, u.user, next);
      return true;
    }

    /** One update, with the handlers registered as bot.py registers them. */
    method Dispatch(u: Update)
      modifies this
      ensures Snapshot() == Step(old(Snapshot()), u)
    {
      var _ := DispatchGroupZero(u);
      if IsFreshPdf(u) {
        IndependentPdfHandler(u.user, u.upload);
      }
    }

    /** One update, with group 1 consulted only when group 0 did not take it. */
    method DispatchCorrected(u: Update)
      modifies this
      ensures Snapshot() == StepCorrected(old(Snapshot()), u)
    {
      var taken := DispatchGroupZero(u);
      if IsFreshPdf(u) && !taken {
        IndependentPdfHandler(u.user, u.upload);
      }
    }
  }

  // ----- Properties of the gate -----

  /** Inside a conversation, a user is in HANDLE_PDF exactly when they have the flag
      (so AGREEMENT means no flag). */
  ghost predicate Consistent(c: Chat) {
    forall user | user in c.conversation :: c.conversation[user] == HandlePdf <==> user in c.accepted
  }

  /** Both routings keep the state consistent. */
  lemma StepKeepsConsistent(c: Chat, u: Update)
    requires Consistent(c)
    ensures Consistent(Step(c, u)) && Consistent(StepCorrected(c, u))
  {
  }

  /** A sequence of updates, one after the other. */
  function Run(c: Chat, us: seq<Update>, corrected: bool): Chat
    decreases |us|
  {
    if us == [] then c
    else Run(if corrected then StepCorrected(c, us[0]) else Step(c, us[0]), us[1..], corrected)
  }

  /** Starting from a fresh bot, every reachable state is consistent. */
  lemma {:induction false} RunKeepsConsistent(c: Chat, us: seq<Update>, corrected: bool)
    requires Consistent(c)
    ensures Consistent(Run(c, us, corrected))
    decreases |us|
  {
    if us != [] {
      StepKeepsConsistent(c, us[0]);
      RunKeepsConsistent(if corrected then StepCorrected(c, us[0]) else Step(c, us[0]), us[1..], corrected);
    }
  }

  /** `/start` skips the agreement exactly for a user who has the flag. */
  lemma StartPromptsIffNoFlag(c: Chat, user: UserId)
    ensures var c' := Step(c, Command(user, "start"));
            && c'.outbox[..|c.outbox|] == c.outbox && |c'.outbox| == |c.outbox| + 1
            && (c'.outbox[|c.outbox|] == (user, AgreementPrompt) <==> user !in c.accepted)
            && (c'.outbox[|c.outbox|] == (user, WelcomeBack) <==> user in c.accepted)
            && c'.conversation[user] == (if user in c.accepted then HandlePdf else Agreement)
            && c'.accepted == c.accepted
  {
  }

  /** Accepting sets the flag and moves on to HANDLE_PDF; accepting again changes nothing
      in the flags. */
  lemma AcceptIsIdempotent(c: Chat, user: UserId)
    ensures var (c1, next) := AgreementAnswer(c, user, AcceptData);
            && c1.accepted == c.accepted + {user} && next == Goto(HandlePdf)
            && AgreementAnswer(c1, user, AcceptData).0.accepted == c1.accepted
  {
  }

  /** Any other answer ends the conversation and leaves the flag as it was: declining
      does not take back an earlier acceptance. */
  lemma DeclineKeepsFlag(c: Chat, user: UserId, data: string)
    requires data != AcceptData
    ensures AgreementAnswer(c, user, data) == (Say(c, user, Declined), End)
    ensures AgreementAnswer(c, user, data).0.accepted == c.accepted
  {
  }

  /** The two keyboard buttons carry the data the callback tells apart. */
  lemma KeyboardButtonsDecide(c: Chat, user: UserId)
    ensures user in AgreementAnswer(c, user, Keyboard[0].1).0.accepted
    ensures AgreementAnswer(c, user, Keyboard[1].1).0.accepted == c.accepted
  {
  }

  /** `/cancel` inside a conversation removes the flag (if any) and ends the
      conversation; outside one no handler takes it and nothing changes. */
  lemma CancelClearsFlag(c: Chat, user: UserId)
    ensures var c' := Step(c, Command(user, "cancel"));
            && (user in c.conversation ==>
                  c'.accepted == c.accepted - {user} && user !in c'.conversation
                  && c'.outbox == c.outbox + [(user, Cancelled)])
            && (user !in c.conversation ==> c' == c)
  {
  }

  /** In AGREEMENT the conversation takes only callback queries and its two fallback
      commands; a document sent there is never handled, under either routing. */
  lemma AgreementStateTakesNoDocuments(c: Chat, u: Update)
    requires Consistent(c) && u.user in c.conversation && c.conversation[u.user] == Agreement
    ensures ConversationRoute(c.conversation, u).Some? ==>
              u.Callback? || (u.Command? && (u.name == "start" || u.name == "cancel"))
    ensures u.DocumentMessage? ==> Step(c, u).handled == c.handled && StepCorrected(c, u).handled == c.handled
  {
  }

  /** With the corrected routing a fresh PDF reaches `handle_document` once if its
      sender has the flag, and otherwise the sender is asked to accept first. */
  lemma CorrectedGateForwardsIffAccepted(c: Chat, u: Update)
    requires Consistent(c) && IsFreshPdf(u)
    ensures var c' := StepCorrected(c, u);
            && (u.user in c.accepted ==> c'.handled == c.handled + [(u.user, u.upload)] && c'.outbox == c.outbox)
            && (u.user !in c.accepted ==> c'.handled == c.handled && c'.outbox == c.outbox + [(u.user, AcceptFirst)])
            && c'.accepted == c.accepted && c'.conversation == c.conversation
  {
  }

  /** As bot.py registers the handlers, a fresh PDF sent in HANDLE_PDF is handled by
      the conversation and again by the group-1 handler: `handle_document` runs twice. */
  lemma AsWrittenHandlesTwiceInHandlePdf(c: Chat, u: Update)
    requires Consistent(c) && IsFreshPdf(u)
    requires u.user in c.conversation && c.conversation[u.user] == HandlePdf
    ensures Step(c, u).handled == c.handled + [(u.user, u.upload), (u.user, u.upload)]
  {
  }

  /** Everywhere else the two routings agree. */
  lemma RoutingsAgreeOutsideHandlePdf(c: Chat, u: Update)
    requires !(u.user in c.conversation && c.conversation[u.user] == HandlePdf)
    ensures Step(c, u) == StepCorrected(c, u)
  {
  }

  /** `c'` differs from `c` only in what concerns `user`: every other user's flag and
      conversation are as they were, and the outbox and the forwarded documents only
      grow, by entries for `user`. */
  ghost predicate OnlyConcerns(c: Chat, c': Chat, user: UserId, other: UserId) {
    && (other in c'.accepted <==> other in c.accepted)
    && (other in c'.conversation <==> other in c.conversation)
    && (other in c.conversation ==> c'.conversation[other] == c.conversation[other])
    && |c.handled| <= |c'.handled| && c'.handled[..|c.handled|] == c.handled
    && (forall i | |c.handled| <= i < |c'.handled| :: c'.handled[i].0 == user)
    && |c.outbox| <= |c'.outbox| && c'.outbox[..|c.outbox|] == c.outbox
    && (forall i | |c.outbox| <= i < |c'.outbox| :: c'.outbox[i].0 == user)
  }

  lemma OnlyConcernsChain(c0: Chat, c1: Chat, c2: Chat, user: UserId, other: UserId)
    requires OnlyConcerns(c0, c1, user, other) && OnlyConcerns(c1, c2, user, other)
    ensures OnlyConcerns(c0, c2, user, other)
  {
    assert c2.handled[..|c0.handled|] == c1.handled[..|c1.handled|][..|c0.handled|];
    assert c2.outbox[..|c0.outbox|] == c1.outbox[..|c1.outbox|][..|c0.outbox|];
  }

  /** An update from one user leaves every other user's flag and conversation alone,
      and whatever it forwards or sends concerns its own sender. */
  lemma OtherUsersUntouched(c: Chat, u: Update, other: UserId)
    requires other != u.user
    ensures OnlyConcerns(c, Step(c, u), u.user, other)
    ensures OnlyConcerns(c, StepCorrected(c, u), u.user, other)
  {
    var c1 := GroupZero(c, u).0;
    assert OnlyConcerns(c, c1, u.user, other);
    if IsFreshPdf(u) {
      assert OnlyConcerns(c1, Independent(c1, u.user, u.upload), u.user, other);
      OnlyConcernsChain(c, c1, Independent(c1, u.user, u.upload), u.user, other);
    }
  }

  /** Only a sender with the flag gets documents forwarded, and the forwarded list
      only grows, by the sender's documents. */
  lemma ForwardsOnlyWithFlag(c: Chat, u: Update, corrected: bool)
    requires Consistent(c)
    ensures var c' := if corrected then StepCorrected(c, u) else Step(c, u);
            && |c.handled| <= |c'.handled| && c'.handled[..|c.handled|] == c.handled
            && (|c.handled| < |c'.handled| ==> u.user in c.accepted)
            && (forall i | |c.handled| <= i < |c'.handled| :: c'.handled[i].0 == u.user)
  {
  }

  /** A user who never presses "accept" never gets a document to `handle_document`. */
  lemma {:induction false} NoDocumentWithoutAcceptance(c: Chat, us: seq<Update>, corrected: bool, user: UserId)
    requires Consistent(c) && user !in c.accepted
    requires forall i | 0 <= i < |us| :: us[i] != Callback(user, AcceptData)
    ensures var c' := Run(c, us, corrected);
            && user !in c'.accepted
            && |c.handled| <= |c'.handled| && c'.handled[..|c.handled|] == c.handled
            && forall i | |c.handled| <= i < |c'.handled| :: c'.handled[i].0 != user
    decreases |us|
  {
    if us != [] {
      var c1 := if corrected then StepCorrected(c, us[0]) else Step(c, us[0]);
      StepKeepsConsistent(c, us[0]);
      ForwardsOnlyWithFlag(c, us[0], corrected);
      assert user !in c1.accepted;
      NoDocumentWithoutAcceptance(c1, us[1..], corrected, user);
      var c' := Run(c1, us[1..], corrected);
      assert c'.handled[..|c.handled|] == c'.handled[..|c1.handled|][..|c.handled|];
      forall i | |c.handled| <= i < |c'.handled| ensures c'.handled[i].0 != user {
        if i < |c1.handled| {
          assert c'.handled[i] == c1.handled[i];
        }
      }
    }
  }
}
