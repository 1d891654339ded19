/** The words of the protocol and the commands they are, each word against every other. */
module CommandWords {
  import opened Units
  import opened Reducer
  import Batches

  /** The word, spelled out, is that command. */
  predicate Means(c: Text, word: string, verb: Verb) {
    IsAscii(word) && c == Ascii(word) ==> VerbFor(c) == verb
  }

  function Letter(c: Text, i: nat): int {
    if i < |c| then c[i] else -1
  }

  /** No command that begins with a digit is among the words. */
  lemma WordsBeginWithLetters(c: Text)
    ensures 0x30 <= Letter(c, 0) <= 0x39 ==>
              MembershipVerb(c).None? && SpeechVerb(c).None? && NewsVerb(c).None? && c != Batches.BATCH
  {
  }

  lemma ComingAndGoing(c: Text)
    ensures Means(c, "JOIN", JoinVerb)
    ensures Means(c, "PART", PartVerb)
    ensures Means(c, "QUIT", QuitVerb)
  {
    var letters := (Letter(c, 0), Letter(c, 1), Letter(c, 2));
  }

  lemma Naming(c: Text)
    ensures Means(c, "NICK", NickVerb)
    ensures Means(c, "KICK", KickVerb)
  {
    var letters := (Letter(c, 0), Letter(c, 1), Letter(c, 2));
  }

  lemma Changing(c: Text)
    ensures Means(c, "MODE", ModeVerb)
    ensures Means(c, "TOPIC", TopicVerb)
  {
    var letters := (Letter(c, 0), Letter(c, 1), Letter(c, 2));
  }

  lemma Pinging(c: Text)
    ensures Means(c, "PING", PingVerb)
    ensures Means(c, "PONG", PongVerb)
  {
    var letters := (Letter(c, 0), Letter(c, 1), Letter(c, 2));
  }

  lemma Speaking(c: Text)
    ensures Means(c, "PRIVMSG", PrivmsgVerb)
    ensures Means(c, "NOTICE", NoticeVerb)
  {
    var letters := (Letter(c, 0), Letter(c, 1), Letter(c, 2));
  }

  lemma Others(c: Text)
    ensures Means(c, "TAGMSG", TagmsgVerb)
    ensures Means(c, "INVITE", InviteVerb)
    ensures Means(c, "BATCH", BatchVerb)
  {
    var letters := (Letter(c, 0), Letter(c, 1), Letter(c, 2));
  }

  lemma AwayNews(c: Text)
    ensures Means(c, "AWAY", AwayVerb)
  {
    var letters := (Letter(c, 0), Letter(c, 1), Letter(c, 2));
  }

  lemma AccountNews(c: Text)
    ensures Means(c, "ACCOUNT", AccountVerb)
  {
    var letters := (Letter(c, 0), Letter(c, 1), Letter(c, 2));
  }

  lemma HostNews(c: Text)
    ensures Means(c, "CHGHOST", ChghostVerb)
  {
    var letters := (Letter(c, 0), Letter(c, 1), Letter(c, 2));
  }

  lemma RealNameNews(c: Text)
    ensures Means(c, "SETNAME", SetnameVerb)
  {
    var letters := (Letter(c, 0), Letter(c, 1), Letter(c, 2));
  }

  lemma Names(c: Text)
    ensures Means(c, "001", WelcomeVerb)
    ensures Means(c, "353", NamesVerb)
    ensures Means(c, "366", NamesEndVerb)
  {
    WordsBeginWithLetters(c);
    hide MembershipVerb;
    hide SpeechVerb;
    hide NewsVerb;
    var letters := (Letter(c, 0), Letter(c, 1), Letter(c, 2));
  }

  lemma Refusals(c: Text)
    ensures Means(c, "432", NickRefusedVerb)
    ensures Means(c, "433", NickRefusedVerb)
  {
    WordsBeginWithLetters(c);
    hide MembershipVerb;
    hide SpeechVerb;
    hide NewsVerb;
    var letters := (Letter(c, 0), Letter(c, 1), Letter(c, 2));
  }

  lemma OtherRefusals(c: Text)
    ensures Means(c, "436", NickRefusedVerb)
    ensures Means(c, "437", NickRefusedVerb)
  {
    WordsBeginWithLetters(c);
    hide MembershipVerb;
    hide SpeechVerb;
    hide NewsVerb;
    var letters := (Letter(c, 0), Letter(c, 1), Letter(c, 2));
  }

  lemma TopicReplies(c: Text)
    ensures Means(c, "331", NoTopicVerb)
    ensures Means(c, "332", TopicReplyVerb)
    ensures Means(c, "333", TopicSetterVerb)
  {
    WordsBeginWithLetters(c);
    hide MembershipVerb;
    hide SpeechVerb;
    hide NewsVerb;
    var letters := (Letter(c, 0), Letter(c, 1), Letter(c, 2));
  }

  lemma Replies(c: Text)
    ensures Means(c, "324", ModeReplyVerb)
    ensures Means(c, "352", WhoVerb)
  {
    WordsBeginWithLetters(c);
    hide MembershipVerb;
    hide SpeechVerb;
    hide NewsVerb;
    var letters := (Letter(c, 0), Letter(c, 1), Letter(c, 2));
  }

  lemma Details(c: Text)
    ensures Means(c, "329", DetailReplyVerb)
    ensures Means(c, "367", DetailReplyVerb)
    ensures Means(c, "368", DetailReplyVerb)
  {
    WordsBeginWithLetters(c);
    hide MembershipVerb;
    hide SpeechVerb;
    hide NewsVerb;
    var letters := (Letter(c, 0), Letter(c, 1), Letter(c, 2));
  }

  lemma MaskLists(c: Text)
    ensures Means(c, "346", DetailReplyVerb)
    ensures Means(c, "347", DetailReplyVerb)
  {
    WordsBeginWithLetters(c);
    hide MembershipVerb;
    hide SpeechVerb;
    hide NewsVerb;
    var letters := (Letter(c, 0), Letter(c, 1), Letter(c, 2));
  }

  lemma MoreMaskLists(c: Text)
    ensures Means(c, "348", DetailReplyVerb)
    ensures Means(c, "349", DetailReplyVerb)
  {
    WordsBeginWithLetters(c);
    hide MembershipVerb;
    hide SpeechVerb;
    hide NewsVerb;
    var letters := (Letter(c, 0), Letter(c, 1), Letter(c, 2));
  }

  lemma QuietLists(c: Text)
    ensures Means(c, "728", DetailReplyVerb)
    ensures Means(c, "729", DetailReplyVerb)
  {
    WordsBeginWithLetters(c);
    hide MembershipVerb;
    hide SpeechVerb;
    hide NewsVerb;
    var letters := (Letter(c, 0), Letter(c, 1), Letter(c, 2));
  }

  lemma AwayReplies(c: Text)
    ensures Means(c, "305", AwayStateVerb)
  {
    WordsBeginWithLetters(c);
    hide MembershipVerb;
    hide SpeechVerb;
    hide NewsVerb;
    var letters := (Letter(c, 0), Letter(c, 1), Letter(c, 2));
  }

  lemma AwayReply(c: Text)
    ensures Means(c, "306", AwayStateVerb)
  {
    WordsBeginWithLetters(c);
    hide MembershipVerb;
    hide SpeechVerb;
    hide NewsVerb;
    var letters := (Letter(c, 0), Letter(c, 1), Letter(c, 2));
  }

  lemma LogIn(c: Text)
    ensures Means(c, "900", LoggedInVerb)
  {
    WordsBeginWithLetters(c);
    hide MembershipVerb;
    hide SpeechVerb;
    hide NewsVerb;
    var letters := (Letter(c, 0), Letter(c, 1), Letter(c, 2));
  }

  lemma LogOut(c: Text)
    ensures Means(c, "901", LoggedOutVerb)
  {
    WordsBeginWithLetters(c);
    hide MembershipVerb;
    hide SpeechVerb;
    hide NewsVerb;
    var letters := (Letter(c, 0), Letter(c, 1), Letter(c, 2));
  }

  lemma MotdEnd(c: Text)
    ensures Means(c, "376", MotdEndVerb)
  {
    WordsBeginWithLetters(c);
    hide MembershipVerb;
    hide SpeechVerb;
    hide NewsVerb;
    var letters := (Letter(c, 0), Letter(c, 1), Letter(c, 2));
  }

  lemma NoMotd(c: Text)
    ensures Means(c, "422", MotdEndVerb)
  {
    WordsBeginWithLetters(c);
    hide MembershipVerb;
    hide SpeechVerb;
    hide NewsVerb;
    var letters := (Letter(c, 0), Letter(c, 1), Letter(c, 2));
  }

  lemma Errors(c: Text)
    ensures Means(c, "ERROR", ErrorVerb)
  {
    var letters := (Letter(c, 0), Letter(c, 1), Letter(c, 2));
  }

  /** Every command the model knows, by its word. */
  lemma EveryWord(c: Text)
    ensures Means(c, "JOIN", JoinVerb)
    ensures Means(c, "PART", PartVerb)
    ensures Means(c, "QUIT", QuitVerb)
    ensures Means(c, "NICK", NickVerb)
    ensures Means(c, "KICK", KickVerb)
    ensures Means(c, "MODE", ModeVerb)
    ensures Means(c, "TOPIC", TopicVerb)
    ensures Means(c, "PING", PingVerb)
    ensures Means(c, "PONG", PongVerb)
    ensures Means(c, "PRIVMSG", PrivmsgVerb)
    ensures Means(c, "NOTICE", NoticeVerb)
    ensures Means(c, "TAGMSG", TagmsgVerb)
    ensures Means(c, "INVITE", InviteVerb)
    ensures Means(c, "BATCH", BatchVerb)
    ensures Means(c, "AWAY", AwayVerb)
    ensures Means(c, "ACCOUNT", AccountVerb)
    ensures Means(c, "CHGHOST", ChghostVerb)
    ensures Means(c, "SETNAME", SetnameVerb)
    ensures Means(c, "001", WelcomeVerb)
    ensures Means(c, "353", NamesVerb)
    ensures Means(c, "366", NamesEndVerb)
    ensures Means(c, "432", NickRefusedVerb)
    ensures Means(c, "433", NickRefusedVerb)
    ensures Means(c, "436", NickRefusedVerb)
    ensures Means(c, "437", NickRefusedVerb)
    ensures Means(c, "331", NoTopicVerb)
    ensures Means(c, "332", TopicReplyVerb)
    ensures Means(c, "333", TopicSetterVerb)
    ensures Means(c, "324", ModeReplyVerb)
    ensures Means(c, "352", WhoVerb)
    ensures Means(c, "329", DetailReplyVerb)
    ensures Means(c, "367", DetailReplyVerb)
    ensures Means(c, "368", DetailReplyVerb)
    ensures Means(c, "346", DetailReplyVerb)
    ensures Means(c, "347", DetailReplyVerb)
    ensures Means(c, "348", DetailReplyVerb)
    ensures Means(c, "349", DetailReplyVerb)
    ensures Means(c, "728", DetailReplyVerb)
    ensures Means(c, "729", DetailReplyVerb)
    ensures Means(c, "305", AwayStateVerb)
    ensures Means(c, "306", AwayStateVerb)
    ensures Means(c, "900", LoggedInVerb)
    ensures Means(c, "901", LoggedOutVerb)
    ensures Means(c, "376", MotdEndVerb)
    ensures Means(c, "422", MotdEndVerb)
    ensures Means(c, "ERROR", ErrorVerb)
  {
    hide Means;
    ComingAndGoing(c);
    Naming(c);
    Changing(c);
    Pinging(c);
    Speaking(c);
    Others(c);
    AwayNews(c);
    AccountNews(c);
    HostNews(c);
    RealNameNews(c);
    Names(c);
    Refusals(c);
    OtherRefusals(c);
    TopicReplies(c);
    Replies(c);
    Details(c);
    MaskLists(c);
    MoreMaskLists(c);
    QuietLists(c);
    AwayReplies(c);
    AwayReply(c);
    LogIn(c);
    LogOut(c);
    MotdEnd(c);
    NoMotd(c);
    Errors(c);
  }
}
