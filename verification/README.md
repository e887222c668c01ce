# Secure session layer of the RSMP gateway: a verified model

The gateway protects the traffic between two peers with a session layer. Before anything else the peers agree
on a cipher. Each login of a peer has a password from which the session keys are derived, and the layer rotates
these passwords while it runs: one side draws a candidate, saves it, and sends one envelope with two elements, a
`ChangePwdRequest` under the current key and a `Ping` under the candidate's key. The other side can open the one
that fits the password it holds, installs or confirms the candidate, saves it, and answers. Application payloads
pass only after both sides have announced `AllClear`.

The main question is whether the two sides can ever be left without a common password, and this project answers
it for every run of two processes, two FIFO channels and two saved credential files, with crashes and lost
connections at any step. Around it stand the parts the protocol relies on: the session object and its handlers,
the key cache, the message queues, the credential index, and the codecs.

## How the model is built

* `Peers` has the indivisible actions of one process as functions on a value; an event of the internal thread is
  cut where it writes `auth.db` and where it queues a message. `Network` puts two processes and two channels
  together as a labelled transition system. A step of the send or receive thread says whether the thread is late:
  from a change of a password until its key is purged it may still use the key of the password before.
* `ChallengeInvariant`, `Agreement` and `Gate` hold the safety results over its runs. `Rounds` has what every step of
  one round of the challenge keeps among any other traffic, `Workload` why the threads come to rest, and `Recovery` the
  results about one side's round. `Crossing` has the rounds of both sides at once and when they block each other,
  `Unanswered` when a challenge stays without an answer for a whole session, `Rotation` when a login is rotated through a
  crossing, and `Reconnection` recovery after a reconnection. `Stale` is the one situation no round gets out of.
  `Choices` says what a scan finds, when a payload is taken and what becomes of a request, `Payloads` under which login a
  payload goes, `Answers` what becomes of an answer, `Delivery` that no payload is lost.
* `KeyCaches` adds the keys the processes keep with their credentials and shows which runs of the program are, key for
  key, runs of `Network`; `CachedProtocol` carries the results over and has the run that fails with two ciphers.
* `Session` is the imperative side: a class with the fields of `cyber_priv_t` and the credentials it works on, one
  method per C function. Each method states its whole new state in terms of the functions of `Peers`, and
  `Session.EventIsRun` shows that an event run to its end is a sequence of steps of the transition system.
* `KeyRace` cuts the look-up, derivation and storing of one key. `KeyThreads` runs these steps among those of the two
  parties for a key a side seals with, and `ReceiverKeys` for one it opens with.
* `SecretCache`, `CountedList`, `MessageQueue`, `QueueRuns`, `AssocList`, `AuthIndex`, `JsonCoder`, `Base64`,
  `Hex`, `StoredPassword`, `Framing` and `Negotiation` model one source file or one part of it each. Loops and in-place
  updates are loops and in-place updates here too.

Assumptions of the model:

* The cipher is ideal: a sealed element opens exactly under the key that sealed it. Key derivation is an injective
  function of the cipher name and the passphrase. Message identifiers are fresh.
* `Network` derives every key from a password. The program takes it from the cache of the credential instead. By
  `KeyCaches.StepRefines` and `KeyCaches.RunRefines` that is the same as long as no session starts under a cipher for
  which the cache has a key of an earlier password, and by `KeyCaches.OneCipherReaches` it is so whenever the sessions
  have used one cipher since the caches were last empty. The results in `CachedProtocol` have exactly this hypothesis.
  Besides, `KeyCaches` takes a `coder_secret_get` as one step. The code does not hold a lock over it, and a change of the
  password that falls in between can leave an old key in use (`KeyRace.OneCipherRace`). By `KeyThreads.NeverRaced` and
  `ReceiverKeys.NeverRaced` none falls in between as long as only the threads of the session use the entry; that no
  thread from outside does is an assumption.
* One live session per pair of peers; both ends stop together when the connection is lost, both directions are
  emptied, and a reconnection starts both ends anew.
* `auth.db` is replaced atomically by each save.
* Both processes are configured with complementary site names and, at the start, the same password at both ends of
  every shared login. Passwords have 8 to 84 octets: above 84 the one-octet padding length of a challenge overflows
  (`src/coder/coder.c:1261`).

Where the code differs from what one would expect, the model follows the code. The results that come from this:

* When in both directions the addressee of the answers has already taken the candidate of the other side's first
  login, no challenge ever succeeds again; one lost answer per direction leads there (`Stale`). This is why
  recovery needs the reply direction to agree.
* When both sides find a due login at their first scan, each request meets a running challenge. Where the first two
  logins of both sides have a candidate (with one login each this is the usual reconnection after an outage) both are
  refused, the refusal is followed by a scan, the scan finds the same login, and so on: nothing is accepted, no login is
  rotated and no AllClear is sent while the session lasts. Within the session the two come to an end exactly when one of
  the answering sides has a free first or second login, or holds the candidate already so that only the ping opens. In
  later sessions they come to an end exactly when a thread finds the other side's request in its queue in its first turn,
  before its first scan, which it can after every such crossing (`Crossing`).
* An answer goes under the answering side's first login. Where the other side does not know that login, or has taken its
  candidate already, a challenge begun with the first scans of a session stays without an answer for the whole session,
  with one exception: two challenges cross, the answering side's own one is for that very login from the start, and its
  answer can be opened. Then that login is switched first, and the answer that leaves after it opens (`Unanswered`,
  `Rotation`).
* The busy test and `_send` look at the pending flag of the first login of the site, also when another login is
  asked for (`src/cyber/cyber.c:1588-1604`, `src/cyber/cyber.c:1914-1918`). A payload goes under the login whose
  challenge is in progress exactly when that login is asked for and the first one has no candidate, and is lost when the
  candidate is installed before it arrives (`Payloads`). Without a login named every payload arrives while the
  connection holds (`Delivery`).
* While the challenge of the first login is out and the site has another login, a request is accepted and its answer
  goes under the challenged login. It is lost, with the connection in place, exactly when the other side uses the
  candidate as it arrives (`Answers`).
* The passphrase of a key runs site, login, password and site together without anything between them, so two logins with
  different passwords can have the same key (`Wire.LoginsShareKeyIff`).
* While the newest login of a site has a candidate every payload that names a login is refused, whichever login it names
  (`Choices.TakenIff`).
* A refusing callback of `auth_foreach` ends the walk of one site only.
* A password change purges the key of the session's cipher only. After a rotation under a second cipher a session under
  the first one seals with an old key, and nothing of any challenge opens although the two passwords are equal
  (`CachedProtocol.SecondCipherLoses`). Under one cipher an old key gets into the cache exactly when a thread derives it
  before the purge of a password change and stores it after (`KeyRace`). No thread of the session can do that: the challenge
  has left the send queue when its answer switches the password (`KeyThreads`), and while a received password is not saved
  nothing of another challenge is on its way (`ReceiverKeys`). A thread from outside the session can, and then nothing of
  the next challenge opens either (`KeyThreads.RaceLoses`).
* The JSON encoder writes a double from the boolean member of the union, so only zero survives; an unsigned integer
  comes back signed and bounded; a null variant cannot be encoded.
* The frame reader also stops at a NUL octet.
* A stored password shorter than 8 octets makes the loader ignore its line.
* `bcd_decode` reads past its terminating NUL exactly when its scanner starts on a lone last character, and writes past
  its buffer exactly when, besides, it has stepped over nothing: "ABC" does both, "AB:C" only the first.

## Model

| member | source | states |
|---|---|---|
| Agreement.AlwaysAgree | src/cyber/cyber.c:1567-1784 | In every reachable state, for either direction and every shared login, the answering side holds the initiating side's current password or its pending candidate, for every pairing of memory and saved file on the two sides; `CachedProtocol.CachedAgree` is the same with cached keys |
| Agreement.SwitchMeansEqual | src/auth/auth.c:101-133 | Right after a switch, before and after its save, the candidate is the password and the other side holds it in memory and on disk |
| Agreement.StepKeepsInv | src/cyber/cyber.c:968-1784 | Every step of either process, of the channels, a lost connection, a reconnection and a crash keeps the inductive invariant of both directions |
| Agreement.ReachableInv | src/cyber/cyber.c:968-1784 | The invariant holds in every reachable state |
| Agreement.OneChallenge | src/cyber/cyber.c:633-665 | Between events of an unstopped session a challenge runs exactly while its timer is armed, nothing waits to be sent, and its login has a non-empty candidate that is saved |
| Agreement.AnswerEnds | src/cyber/cyber.c:1658-1784 | A matching answer always ends the challenge: a refusal at once, an acceptance with the switch completed, the timer stopped in both cases |
| Agreement.EndDisarms | src/cyber/cyber.c:1482-1528 | The end of a session, by a stop or a restart of either side, disarms the timers of both; afterwards only the hand-over of a challenge that was being prepared arms one |
| Agreement.AtMostOneAnswer | src/cyber/cyber.c:1658-1784 | Over any run and any number of sessions no challenge takes two answers |
| Agreement.CandidateStable | src/auth/auth.c:12-67 | A saved candidate stays as it is, in memory and on disk, through retries, refusals, timeouts, reconnections and restarts, until the one step that makes it the password |
| Agreement.QueuedMeansKept | src/coder/coder.c:1250-1262 | When a challenge is about to be queued its candidate is already saved |
| Recovery.RoundEnds | src/cyber/cyber.c:1296-1773 | From any reachable state in which neither side has a live challenge on its way and the other side is not busy, a scan that selects a login starts a round. In any interleaving of the threads, among any payloads of both sides, any traffic already under way and any scans that find nothing to begin, it takes at most nineteen steps of its own; once it has settled the login is recovered (equal passwords, nothing pending, other entries unchanged, all saved) if and only if the reply direction agreed, and otherwise the challenge is unanswered |
| Recovery.RoundCompletes | src/cyber/cyber.c:1060-1296 | Nothing blocks a round as long as the other side's scans find nothing to begin, since it has an own challenge running or no login due: from each of its states the threads, each scanning after every turn, reach the end of the challenge or come to rest |
| Recovery.RoundHappens | src/cyber/cyber.c:1224-1296 | Every round that can start, the other side's scans finding nothing to begin as above, is carried through by the threads and ends as RoundEnds says |
| Reconnection.ReconnectIff | src/cyber/cyber.c:1224-1296 | From every reachable state between events in which the scan of this side finds a due login the other side knows, and the other side does not find one as well, or has a free first or second login then, or holds this side's candidate: the session is opened anew and both sides scan; some run of the session from there, each turn ending with a scan, rotates the login, in memory and on disk at both ends, if and only if the reply direction agrees at the start, or the other side's scan finds its first login, this side holds that candidate, and this side's answers can be opened |
| Reconnection.ReconnectRecovers | src/cyber/cyber.c:1224-1296 | In the positive case a run of the threads in their turns that does it is constructed |
| Reconnection.NeverRecovers | src/cyber/cyber.c:1658-1784 | In the negative case this side keeps its passwords and candidates in every state of every run that opens the session so and goes on in it, whatever the threads and applications do, and whether the other side can take its challenge up or not |
| Rotation.RotatesIff | src/cyber/cyber.c:1580-1773 | From every crossing in which the other side can take this side's challenge up: some run of the session rotates the login if and only if the reply direction agrees, or the other side's challenge is for its first login, this side holds that candidate, and this side's answers can be opened |
| Rotation.CrossedRecovers | src/cyber/cyber.c:1580-1773 | Where the reply direction agrees a run of the threads from such a crossing rotates the login |
| Rotation.RepairedRecovers | src/cyber/cyber.c:1658-1784 | Where it does not agree and the other side's challenge can repair it, a run of the threads rotates the login: the other side takes this side's request over and switches its own login before its answer leaves |
| Unanswered.NeverRotated | src/cyber/cyber.c:1796-1841 | Otherwise, over every run of the session from the crossing, of the threads, scans and applications in any order: this side's challenge for the login stays under way, and none of its passwords and candidates changes |
| Unanswered.NotBefore | src/cyber/cyber.c:1796-1841 | Where the reply direction does not agree, no run of the session changes a password or candidate of this side before one of the other side's has changed |
| Unanswered.NeverHeard | src/cyber/cyber.c:1796-1841 | The same as Unanswered.NeverRotated where the other side has begun no challenge and this side does not know its first login |
| Crossing.CrossingEndsIff | src/cyber/cyber.c:1580-1611 | From every reachable state in which both sides have just found a login known to the other, with candidates that differ from the passwords: some run of the session in which every thread scans after each message takes a challenge up if and only if an answering side has a free first or second login, or holds the candidate already |
| Crossing.CrossingForEver | src/cyber/cyber.c:1658-1693 | Otherwise, over every such run of the session: no challenge is taken up, no password and no candidate changes, neither side announces AllClear, and each side challenges again or is about to scan |
| Crossing.DeadCrossingEndsIff | src/cyber/cyber.c:1224-1296 | And over every run without a restart, with any number of sessions, in which every thread scans after each message: as long as no challenge has been taken up nothing has changed, and the step that takes the first one up is exactly one in which a thread takes up a request in its first turn of a session, before its first scan |
| Crossing.DeadCrossingEscapes | src/cyber/cyber.c:1231-1296 | From every such crossing there is such a run: both challenges are handed over, the connection is lost and opened anew, one side scans and sends its challenge, and the other side takes it up in its first turn |
| Crossing.CrossingIsReachable | src/cyber/cyber.c:668-753 | For any sites, login, passwords and candidates the first session of two processes with one login that is due on both sides reaches such a crossing |
| Crossing.ReachableOldest | src/cyber/cyber.c:668-753 | In every reachable state a challenge under way is for the oldest login of the site where that one has a candidate |
| Workload.RunsDown | src/cyber/cyber.c:1224-1296 | Without new payloads and challenges the threads take no more steps, apart from scans that find nothing, than the work there is at the start |
| Recovery.WhatOpens | src/coder/coder.c:1824-1863 | Whether its thread is late or not, the answering side opens at least one element of a challenge: the request alone under the current password, the ping alone under the candidate, both exactly when the two are equal |
| Recovery.RestartIsQuiet | src/auth/auth-basic.c:1010-1130 | After a restart of both sides from any reachable state everything is at rest and each side continues from its saved credentials |
| KeyCaches.SaveKeepsRightIff | src/cyber/cyber.c:1613-1632 | The save of a changed password and the purge that goes with it leave the keys of the session right, and those of all ciphers if and only if the password is the same or the entry has no key of another cipher |
| KeyCaches.StepRefines | src/coder/coder.c:431-476 | With right caches every step of the program, with the keys its caches give, is a step of the protocol; its caches stay right exactly unless it saves a changed password beside another cipher's key (all keys) or starts a session under a cipher with an old key (keys in use) |
| KeyCaches.RunStaysRightIff | src/coder/coder.c:431-476 | Over whole runs: the caches are right throughout if and only if no step is of that kind |
| KeyCaches.RunRefines | src/coder/coder.c:431-476 | A run of the program without such a step is a run of the protocol, with the same state of both processes and channels at every point |
| KeyCaches.CachedIsReachable | src/coder/coder.c:431-476 | Every state the program reaches without starting a session under a cipher with an old key is reachable in the protocol, and its keys in use are right |
| KeyCaches.OneCipherReaches | src/coder/coder.c:431-476 | The runs whose sessions use one cipher as long as there are cached keys are of that kind |
| CachedProtocol.CachedAgree | src/cyber/cyber.c:1567-1784 | Agreement for the program with its caches, in memory and after restarts |
| CachedProtocol.CachedOpens | src/coder/coder.c:512-560 | With the key its cache gives, the answering side opens one or both elements of a live challenge |
| CachedProtocol.CachedRoundEnds | src/cyber/cyber.c:1296-1773 | A round of the program takes at most nineteen steps of its own and ends recovered if and only if the reply direction agreed |
| CachedProtocol.CachedReconnectIff | src/cyber/cyber.c:1224-1296 | The same as Reconnection.ReconnectIff for the program, from every such state between events and under a cipher without an old key |
| CachedProtocol.CachedRecovers | src/cyber/cyber.c:1224-1296 | In the positive case a run of the program that rotates the login is constructed |
| CachedProtocol.SecondCipherLoses | src/cyber/cyber.c:1682-1682 | For any sites, login, passwords and two ciphers the program reaches a state in which both ends hold the same password and neither element of the challenge on the wire opens |
| Payloads.UnderChallengedIff | src/cyber/cyber.c:1877-1918 | A payload is queued under the login whose challenge is in progress if and only if that login is asked for and the first login of the site has no candidate |
| Payloads.NamedPayloadLost | src/cyber/cyber.c:1912-1918 | From every such point a payload that names the challenged login is accepted, leaves under the old password after the candidate has been installed, and never arrives, without any lost connection |
| Payloads.ExposedIsReachable | src/cyber/cyber.c:1912-1918 | Such a point is reached by two processes with two logins, both AllClear exchanged, when the older login falls due |
| Answers.AnswerUnderPendingIff | src/cyber/cyber.c:1580-1611 | With an own challenge in progress for the first login, under which answers go, a request is accepted if and only if the site has another login; for any challenged login the answer goes under one with a candidate if and only if the first has one and the second none |
| Answers.FirstFoundIsReachable | src/cyber/cyber.c:1580-1611 | Two processes with two logins, the newer of which falls due first, reach in their first session a point at which both have found that login |
| Answers.AnswerGetsLost | src/cyber/cyber.c:1580-1645 | From every point at which one side has found its first login, of several, and the other side will take its challenge up: in a run of the threads that side accepts the other's request while the challenge of its first login is out and its candidate installed at the other side; the answer leaves under the old password, does not open, and nothing is left on its way, without a lost connection |
| Answers.AnswerLostIff | src/cyber/cyber.c:1796-1841 | Over every run and with threads late or not, an answer that leaves in one step and arrives in another of the same session is lost if and only if the first login has, as it leaves, a candidate other than its password and the other side uses that candidate as it arrives; so it always is when the candidate is installed and saved there by then, and never is without one |
| Delivery.NoPayloadLost | src/cyber/cyber.c:1859-1924 | In a session that holds, from any reachable state, also after lost answers: whatever challenges run, what one application has handed over without naming a login is what has arrived, followed by what is on its way, in order, provided that its logins are known to the other side |
| Delivery.Delivers | src/cyber/cyber.c:1129-1169 | The payload at the head of the wire opens whichever key the receive thread uses |
| CachedProtocol.CachedNoPayloadLost | src/cyber/cyber.c:1859-1924 | The same for a session of the program that starts with no old key of its cipher |
| Stale.StaleIsReachable | src/cyber/cyber.c:1613-1657 | For any sites, login and passwords a run without a crash, with one answer lost in each direction, makes both directions stale |
| Stale.StaleForEver | src/cyber/cyber.c:1796-1841 | No run leaves that state: in every later state neither side's answers can be opened |
| Stale.NoSwitchEver | src/cyber/cyber.c:1658-1784 | From it on no login of either side is ever switched |
| Gate.PayloadAfterAllClear | src/cyber/cyber.c:1859-1924 | When an application payload is on the wire its addressee has sent its own AllClear and the sender's AllClear is before it on the same wire |
| Gate.DeliveredAfterAllClear | src/cyber/cyber.c:1560-1566 | A delivered payload finds both AllClear sent |
| Gate.AllClearOnce | src/cyber/cyber.c:939-1003 | In one session a side puts at most one AllClear on the wire |
| Peers.DueLogin | src/cyber/cyber.c:668-753 | The scan selects a login that has a pending candidate or is older than three quarters of 135 seconds, and none exactly when no login is |
| Choices.ScanFinds | src/cyber/cyber.c:668-753 | The scan finds a login if and only if it is the first of the list that has a candidate or whose password is older than three quarters of 135 seconds |
| Choices.OneLoginFoundIff | src/cyber/cyber.c:702-719 | One login without a candidate is found if and only if four times its age in seconds is more than three times 135 |
| Choices.AnnouncesIff | src/cyber/cyber.c:984-1003 | Over all steps: a side announces AllClear if and only if the step is a scan of its own with no challenge under way and no login of the list with a candidate or an old password |
| Choices.FruitlessScan | src/cyber/cyber.c:675-678 | A scan that finds nothing drops a context that has come to its end, except where the list is empty, and changes nothing else but for the announcement |
| Choices.SwitchSetsClock | src/auth/auth.c:101-133 | A switch leaves the entry with the candidate as its password, none pending, and the time of the switch, and its save puts that into the file |
| Choices.StaysRested | src/cyber/cyber.c:702-719 | Over every run, with reconnections and restarts, such an entry stays what it is in memory and in the file as long as no scan of its side comes later than three quarters of 135 seconds after its time |
| Choices.RequestOutcome | src/cyber/cyber.c:1567-1645 | A request for a known login is ignored, refused or installed as of now, by the length of its text, its decoding, the challenge under way and the candidates of the newest and the oldest login |
| Choices.GuardIff | src/coder/coder.c:876-889 | A text of whole groups passes the guard if and only if it stands for a password of less than 256 octets; an empty one does not |
| Choices.TakenIff | src/cyber/cyber.c:1859-1924 | A payload without a login is taken if and only if both AllClear have passed, the site has a login, and the newest one is not challenged or the oldest of several has no candidate; it goes under the newest, or else the oldest. One with a login is taken if and only if both have passed, the login is one of the site's and the newest one has no candidate |
| Choices.OldestKeepsOpen | src/cyber/cyber.c:1889-1900 | In every reachable state with both AllClear passed a payload is taken while the oldest of several logins has no candidate, whatever challenge is under way |
| Peers.SortedInOrder | src/cyber/cyber.c:1129-1169 | Opened messages go one by one to the queue of their class, behind those before them |
| ChallengeInvariant.ChallengeOpens | src/coder/coder.c:1230-1382 | What the addressee opens of the live challenge is determined by the password it holds |
| ChallengeInvariant.RequestText | src/coder/coder.c:876-889 | The text of a candidate of 8 to 84 octets passes the length guard and decodes to the candidate |
| ChallengeInvariant.RequestResponder | src/cyber/cyber.c:1567-1657 | Handling the request of the live challenge keeps the direction: it is refused, or the candidate is installed before the answer |
| ChallengeInvariant.SwitchInitiator | src/cyber/cyber.c:1658-1784 | A switch on a true answer leaves every pairing of memory and file in agreement |
| ChallengeInvariant.EmitChallenge | src/coder/coder.c:1230-1382 | A new challenge is the only one on its way and no earlier answer can match it |
| ChallengeInvariant.PongIsTrue | src/cyber/cyber.c:1701-1720 | An opened ping was sealed under the password the answering side holds in memory and on disk |
| Credentials.LoadInvertsSave | src/auth/auth-basic.c:945-1130 | Saving and loading restores every credential, its candidate and the order of the logins |
| Credentials.ComesBackAs | src/auth/auth-basic.c:1060-1130 | Any entry comes back from its line as it was, without its candidate where that is shorter than 8 octets, and not at all where its password is |
| Credentials.ShortOnesMissing | src/auth/auth-basic.c:1060-1130 | From the file of any credentials exactly the entries with a password of at least 8 octets come back, in both directions and in the list |
| Wire.KeysAgree | src/coder/coder.c:376-405 | The sender's and the receiver's key of a login are equal exactly when their passwords are, since the two orders of the passphrase coincide |
| Wire.KeysCoincideIff | src/coder/coder.c:376-405 | For any senders, receivers, logins, passwords and ciphers the key one side seals with and the key the other derives are the same if and only if the cipher is, and sending site, login, password and receiving site run together to the same octets |
| Wire.LoginHasOwnKey | src/coder/coder.c:376-405 | Between the same two sites and with one password, two logins have the same key if and only if they are the same login |
| Wire.SiteHasOwnKey | src/coder/coder.c:376-405 | With one login and password the key is that of one sending site, one receiving site and one cipher |
| Wire.LoginsShareKeyIff | src/coder/coder.c:376-405 | With different passwords two logins of the same sites share a key if and only if login and password run together alike, as for the login "a" with a password that begins with b and the login "ab" with the rest of it |
| Wire.OpenedInOrder | src/coder/coder.c:1824-1863 | Each element of an envelope gives its body or nothing, in its place among those before and behind it |
| Wire.DecodeElements | src/coder/coder.c:1824-1863 | The loop over the elements of an envelope returns the bodies that open, in order |
| Session.EventIsRun | src/cyber/cyber.c:1545-1791 | A handled message, run to the end of its event, is a sequence of steps of the transition system |
| Session.ChallengeIsRun | src/cyber/cyber.c:968-1038 | A completed scan event is a scan, a save and a hand-over of the transition system |
| Session.Session.constructor | src/cyber/cyber.c:217-250 | A new session over the credentials of the process, with an empty context and nothing announced |
| Session.Session.GenerateCandidate | src/auth/auth.c:12-45 | Without a pending candidate the loop fills one of the password's length with the drawn printable characters; a pending one is kept |
| Session.DrawsPrintable | src/auth/auth.c:33-37 | Every octet of a drawn candidate is a printable character of ASCII, from 32 to 126, and every text of such characters can be drawn |
| Session.Session.NewPwdB64 | src/auth/auth.c:49-76 | The candidate is kept or drawn, marked pending, saved with the whole database, and returned in base64 |
| Session.Session.SaveDatabase | src/auth/auth-basic.c:971-990 | The saved credentials are those in memory |
| Session.Session.SetPwdB64 | src/auth/auth.c:78-99 | A text that decodes becomes the FROM password with a new time and is saved; another changes nothing |
| Session.Session.SwitchToNewPwd | src/auth/auth.c:101-133 | With a pending candidate it becomes the password, is forgotten as a candidate and is saved; without one nothing changes |
| Session.Session.ForgetNewPwd | src/auth/auth.c:135-150 | The candidate and its flag are cleared and nothing else |
| Session.Session.SearchLogin | src/cyber/cyber.c:668-753 | The walk puts the first due login into the context and drops a finished context on the way |
| Session.Session.EncodeChallenge | src/coder/coder.c:1230-1382 | The candidate is saved and the envelope has the request under the current key and the ping under the candidate's |
| Session.Session.StopTimer | src/cyber/cyber.c:633-642 | The timer is disarmed where there is a context |
| Session.Session.LaunchTimer | src/cyber/cyber.c:644-665 | The timer is armed where there is a context |
| Session.Session.SendMessage | src/cyber/cyber.c:1926-1961 | The message is the last of the send queue, without a login |
| Session.Session.SendAllClear | src/cyber/cyber.c:939-964 | AllClear is queued without a login and noted as sent |
| Session.Session.InitiateChallenge | src/cyber/cyber.c:968-1038 | One challenge is prepared, saved and queued, or AllClear is announced once, or nothing happens while a challenge runs |
| Session.Session.NoLoginFree | src/cyber/cyber.c:1580-1611 | The busy test as a condition on the running challenge and the first two logins |
| Session.Session.OnChangePwdRequest | src/cyber/cyber.c:1567-1657 | The password is installed and saved before a positive answer is queued; a busy side or a bad text gives a refusal and a text the guard rejects gives no answer |
| Session.Session.EndChallenge | src/cyber/cyber.c:1690-1698 | The challenge no longer runs and a scan follows |
| Session.Session.OnChangePwdResponse | src/cyber/cyber.c:1658-1700 | Only the answer to the running challenge counts; it ends the challenge and a scan follows |
| Session.Session.OnPong | src/cyber/cyber.c:1721-1784 | Only the answer to the running challenge counts; it switches, ends the challenge and a scan follows |
| Session.Session.ProcessInternal | src/cyber/cyber.c:1545-1791 | The whole new state of the session after one internal message |
| Session.Session.Deliver | src/cyber/cyber.c:1129-1169 | Each opened body goes to the queue of its class, in order |
| Session.Session.SendNext | src/cyber/cyber.c:339-393 | The oldest message leaves, sealed under the password that is current now, or as it is when it is a challenge |
| Session.Session.SendPayload | src/cyber/cyber.c:1859-1924 | A payload is queued exactly when the conditions of Choices.TakenIff hold, under the login these name, and otherwise nothing changes |
| Session.Session.StopSession | src/cyber/cyber.c:1482-1528 | The session is stopped and the timer disarmed; a stopped one stays as it is |
| Session.Session.OnChallengeTimeout | src/cyber/cyber.c:617-631 | A timeout stops the session exactly when a challenge runs |
| KeyRace.StaleIffRaced | src/coder/coder.c:431-476 | Under one cipher, with any number of threads and over every run: between two changes of the password the key in the cache is an old one if and only if a thread derived it from another password before a purge and stored it after |
| KeyRace.OneCipherRace | src/coder/coder.c:431-476 | For any two passwords the three steps of one thread with a change and its purge between the second and the third lead there |
| KeyRace.StaysInUse | src/auth/auth-basic.c:1215-1250 | Once no thread is in the middle of it, the key in the cache stays until the next change |
| KeyThreads.NeverRaced | src/cyber/cyber.c:335-393 | With the internal and the send thread of the session only, over every run of the two parties in which their look-ups, derivations and storings of the key of a TO entry fall anywhere among the other steps: the key in the cache is the one of the current password except from a switch to its purge, and no thread is in the middle of its coder_secret_get then |
| KeyThreads.RacedChallenge | src/coder/coder.c:1268-1306 | With any number of threads from outside the session at the entry, over every run: a challenge under the cached key opens nothing at the other side if and only if the race of KeyRace has happened and the other side does not use the candidate |
| KeyThreads.RaceLoses | src/coder/coder.c:431-476 | For any sites, login, cipher and passwords such a run is constructed under one cipher: a thread from outside derives the key before a rotation and stores it after, both ends hold the same password, and neither element of the next challenge opens |
| ReceiverKeys.NothingComes | src/cyber/cyber.c:1613-1645 | In every reachable state, from the moment a side has installed a received password to its save, nothing of a challenge of the other side is on its way: the other side still has the challenge, and nothing has answered it |
| ReceiverKeys.NeverRaced | src/cyber/cyber.c:1128-1169 | Over every run of the two parties in which the receive thread's look-ups, derivations and storings of the key of a FROM entry fall anywhere among the other steps: the key in the cache is the one of the current password except from a change to its purge, and the thread is not in the middle of its coder_secret_get then |
| SecretCache.OneCipherRefines | src/coder/coder.c:431-476 | Over any sequence of uses and password changes under one cipher every key used is the one a fresh derivation gives |
| SecretCache.ChangeKeepsFreshIff | src/cyber/cyber.c:1632-1632 | A change with its purge leaves a right cache if and only if the password did not change or no other cipher had a key |
| SecretCache.SecondCipherIsStale | src/cyber/cyber.c:1682-1682 | A change under a second cipher leaves the first one's key, and a later use under the first gets it |
| SecretCache.CachedKeysAgree | src/coder/coder.c:376-476 | With right caches at both ends the cached keys of sender and receiver are equal exactly when their passwords are |
| SecretCache.UseKeepsFresh | src/coder/coder.c:431-476 | A use of a right cache gives the derived key and leaves the cache right |
| SecretCache.OtherPwdOtherKey | src/coder/coder.c:376-405 | Different passwords give different keys |
| SecretCache.CachedAuth.constructor | src/auth/auth-basic.c:432-443 | A new entry has no cached key |
| SecretCache.CachedAuth.Find | src/auth/auth-basic.c:1215-1230 | The walk finds the key of a cipher exactly when it is cached |
| SecretCache.CachedAuth.AddOrUpdate | src/auth/auth-basic.c:1274-1299 | The cache maps the cipher to the given key and is otherwise unchanged |
| SecretCache.CachedAuth.Delete | src/auth/auth-basic.c:1256-1272 | Exactly the key of the cipher is gone, and the result says whether it was there |
| SecretCache.CachedAuth.GetSecret | src/coder/coder.c:431-476 | The cached key is returned, or a derived one is cached and returned; with a right cache it is the derived one |
| SecretCache.CachedAuth.ChangePassword | src/cyber/cyber.c:1762-1770 | The password is replaced and the key of the session's cipher purged |
| QueueRuns.PullFinds | src/sync/queue.c:231-252 | With any number of queues, producers and consumers, in every interleaving, a thread that has passed the semaphore finds a message |
| QueueRuns.FirstInFirstOut | src/sync/queue.c:231-266 | At every point of every run with any number of queues, producers and consumers, what has been inserted into a queue is what the pulls have taken off it so far, in that order, followed by what is in its list |
| QueueRuns.RanksRise | src/sync/queue.c:231-252 | The m-th extraction from a queue takes the m-th message inserted, and later extractions take later ones |
| QueueRuns.PullReturns | src/sync/queue.c:231-252 | A thread that has extracted a message copies that very message, whatever the other threads do in between |
| QueueRuns.HistoryIsGiven | src/sync/queue.c:120-150 | Over every run what has been inserted into a queue is, one by one and in order, what its pushes were given: whole where it has a length, without a buffer otherwise |
| QueueRuns.PulledIsPushed | src/sync/queue.c:231-266 | What a thread copies after its extraction is what an earlier push of that queue was given, the one of its rank, whole where it has a length |
| QueueRuns.CellsConserved | src/sync/queue.c:120-177 | Every allocated cell is in exactly one of the pool, one queue or one thread's hands |
| QueueRuns.StepKeepsInv | src/sync/queue.c:231-266 | Every atomic step keeps the count of semaphore, pending signals and passed waits, the order and the places of the cells |
| MessageQueue.Queue.constructor | src/sync/queue.c:283-292 | A new queue is empty and shares the given pool |
| MessageQueue.Queue.NewCell | src/sync/queue.c:120-152 | A cell from the pool, or a new one, holds the given message, whole where it has a length and without its buffer otherwise |
| MessageQueue.Queue.Recycle | src/sync/queue.c:165-176 | The cell is the last of the pool and the queue is unchanged |
| MessageQueue.Queue.Push | src/sync/queue.c:254-266 | The message, whole where it has a length and without its buffer otherwise, is the last of the queue |
| MessageQueue.Queue.Pull | src/sync/queue.c:231-252 | The oldest message is returned and its cell goes to the pool; an empty queue gives nothing |
| MessageQueue.Queue.Flush | src/sync/queue.c:208-276 | Every cell goes to the pool and the number of dropped messages is returned |
| CountedList.List.constructor | src/sync/ldc-mutex.c:140-148 | An empty list counts zero |
| CountedList.List.Insert | src/sync/ldc-mutex.c:26-36 | The node is the last and the count is the number of nodes |
| CountedList.List.Find | src/sync/ldc-mutex.c:38-55 | The first node that satisfies the test, or none exactly when no node does |
| CountedList.List.Search | src/sync/ldc-mutex.c:57-88 | The first matching node is unlinked while it is updated; the updated node, if it is not linked, goes to the end; the count is the number of nodes |
| CountedList.List.Extract | src/sync/ldc-mutex.c:95-108 | The oldest node is unlinked and counted off, or none when there is none |
| CountedList.List.Suppress | src/sync/ldc-mutex.c:220-231 | Exactly the given node is unlinked and counted off |
| CountedList.List.Flush | src/sync/ldc-mutex.c:175-192 | All nodes are released in order and their number is returned |
| CountedList.List.Foreach | src/sync/ldc-mutex.c:194-208 | The callback is called with its context for the nodes in order up to the first it refuses; the result is the number it accepted |
| CountedList.List.IsIn | src/sync/ldc-mutex.c:233-251 | Whether the node is linked |
| AuthIndex.RunRefines | src/auth/auth-basic.c:547-744 | Under any sequence of insert, insert-or-update, insert-by-key, find-or-create and delete no level holds a key twice and every lookup agrees with a flat map |
| AuthIndex.InsertRefines | src/auth/auth-basic.c:547-570 | An insertion adds its entry only where none was, and changes no other |
| AuthIndex.ReplaceRefines | src/auth/auth-basic.c:573-592 | Insert-or-update sets its entry and changes no other |
| AuthIndex.DeleteRefines | src/auth/auth-basic.c:726-743 | A deletion removes its entry and no other |
| AuthIndex.VisitsEachOnce | src/auth/auth-basic.c:795-853 | With any filter a walk whose callback accepts visits each matching entry exactly once and returns their number |
| AuthIndex.VisitCalls | src/auth/auth-basic.c:795-853 | For any callback and filter the walk makes exactly these calls, in this order, and returns the number accepted |
| AuthIndex.RefusalEndsOneSite | src/auth/auth-basic.c:795-853 | For any callback the calls at a site are its logins up to the first refusal; a refusal is the last call of the walk if and only if no later site of the walk has a login, and otherwise the next call is for the first login of the next site that has one |
| AuthIndex.NextCycles | src/auth/auth-basic.c:883-904 | From any entry of the index repeated next meets every entry of its site exactly once in as many steps as there are, and comes back; an only entry has no next one |
| AuthIndex.NewestIsFirst | src/auth/auth-basic.c:547-592 | The entry inserted last is the first of its site; inserting an existing one changes nothing about it |
| AuthIndex.FirstAndNext | src/auth/auth-basic.c:856-904 | The first login of a site is the last of its list and the next one after it the first of the list, where there is another |
| AuthIndex.NewestOfAll | src/auth/auth-basic.c:856-880 | Without a database or a site the first entry is the last login of the last site of the last database |
| AuthIndex.OrderAfter | src/auth/auth-basic.c:547-743 | A new login goes to the end of its site and an existing one keeps its place; insert-or-update moves it to the end, a deletion keeps the order of the others, and no other site is touched |
| AuthIndex.SitesAfter | src/auth/auth-basic.c:547-743 | A site and its database stay when their logins are deleted; a new site goes to the end of its database, a new database to the end of all |
| AuthIndex.PlacesInOrder | src/auth/auth-basic.c:795-853 | A walk over everything goes through the databases, and in each through its sites, in their order |
| AuthIndex.CreatedAs | src/auth/auth-basic.c:670-712 | A new credential keeps what it is given, but is active only with a password and pending only with a candidate |
| AuthIndex.BlankEntry | src/auth/auth-basic.c:616-667 | An entry created by its key alone has no password and no candidate and is inactive, and none is created for an incomplete key |
| AuthIndex.Index.SearchDb | src/auth/auth-basic.c:212-226 | Find or insert a database |
| AuthIndex.Index.SearchSite | src/auth/auth-basic.c:366-382 | Find or insert a site |
| AuthIndex.Index.Insert | src/auth/auth-basic.c:547-570 | The new lists, and success exactly when the entry did not exist |
| AuthIndex.Index.InsertOrUpdate | src/auth/auth-basic.c:573-592 | An existing entry is removed and the new one is the last of its site |
| AuthIndex.Index.FindByKey | src/auth/auth-basic.c:595-613 | The entry of the flat map |
| AuthIndex.Index.InsertByKey | src/auth/auth-basic.c:616-643 | A blank entry where the key is complete and new, nothing otherwise |
| AuthIndex.Index.SearchByKey | src/auth/auth-basic.c:646-667 | The existing entry, or a blank one that is then in the index |
| AuthIndex.Index.DeleteByKey | src/auth/auth-basic.c:735-743 | The entry is gone while its site and database stay |
| AuthIndex.Index.ForeachLogin | src/auth/auth-basic.c:795-808 | The walk of one site counts the entries accepted before the first refusal |
| AuthIndex.Index.ForeachSite | src/auth/auth-basic.c:810-831 | The walk of one database, over one site or all of them |
| AuthIndex.Index.Foreach | src/auth/auth-basic.c:833-853 | The nested loops give the context and the count of the walk, for any callback and filter |
| AuthIndex.Index.GetFirst | src/auth/auth-basic.c:856-880 | The newest login of the given site, or of the newest one, of the given database, or of the newest one; it exists |
| AuthIndex.Index.GetNext | src/auth/auth-basic.c:883-904 | The entry behind the given one, round the end of its site's list, and nothing when there is no other |
| AssocList.Find | src/auth/auth-basic.c:75-95 | The first node with the key, or the end of the list |
| JsonCoder.MessageTripped | src/rsmp/coder/json.c:201-615 | For distinct labels, extracting what was added gives the message back if and only if every leaf comes back, through arrays of any length and depth and through tables |
| JsonCoder.CarriedIff | src/rsmp/coder/json.c:54-80 | Exactly booleans, strings, signed integers and the double zero come back from JSON as they were; what the others become |
| JsonCoder.MessageShown | src/rsmp/coder/json.c:54-225 | For distinct labels, adding a message gives an object if and only if that object shows it: one member for each descriptor and no other, a leaf as the JSON value of its variant, an array as one object for each item and a table as one value for each element, in order |
| JsonCoder.MessageRead | src/rsmp/coder/json.c:496-615 | Extracting gives a message if and only if that message is read from the tree: one slot for each descriptor and no other, each from its member, there and not null, integers held at the largest signed one and doubles as they stand |
| JsonCoder.InverseSurvives | src/rsmp/coder/json.c:496-510 | A converter that undoes itself on such a variant gives a leaf that comes back |
| JsonCoder.SameLabelLoses | src/rsmp/coder/json.c:85-93 | Of two fields under one label the second overwrites the first |
| JsonCoder.Variant.Free | src/rsmp/coder/vars.h:64-75 | The variant reads as null |
| JsonCoder.Variant.SetBool | src/rsmp/coder/vars.h:176-185 | The variant reads as the boolean although only one octet is written, whatever it held before |
| JsonCoder.Variant.SetString | src/rsmp/coder/vars.h:114-141 | The variant reads as the string, whatever it held before |
| JsonCoder.Variant.SetInt | src/rsmp/coder/vars.h:143-152 | The variant reads as the signed integer, whatever it held before |
| JsonCoder.Variant.SetUInt | src/rsmp/coder/vars.h:154-163 | The variant reads as the unsigned integer, whatever it held before |
| JsonCoder.Variant.SetDouble | src/rsmp/coder/vars.h:165-174 | The variant reads as the double, whatever it held before |
| JsonCoder.Variant.ToJson | src/rsmp/coder/json.c:54-80 | The JSON value of what the variant reads as |
| JsonCoder.AddAll | src/rsmp/coder/json.c:201-225 | The loop over the descriptors gives the object of the encoding or fails exactly when a slot cannot be encoded |
| JsonCoder.AddField | src/rsmp/coder/json.c:95-110 | A field adds its member, or nothing when its leaf cannot be encoded |
| JsonCoder.AddTable | src/rsmp/coder/json.c:160-198 | The elements of a table are encoded in order through one reused variant |
| JsonCoder.AddArray | src/rsmp/coder/json.c:113-158 | The elements of an array are encoded in order, each as an object of its own |
| JsonCoder.ExtractAll | src/rsmp/coder/json.c:566-615 | The loop over the descriptors fills the memory or fails exactly when a member is missing, null or does not decode |
| JsonCoder.ExtractArray | src/rsmp/coder/json.c:515-538 | The elements of an array are decoded in order, each into memory of its own |
| JsonCoder.ExtractSlot | src/rsmp/coder/json.c:566-615 | One member decoded by the kind of its descriptor |
| JsonCoder.ExtractTable | src/rsmp/coder/json.c:540-563 | The elements of a table are decoded in order |
| Base64.RoundTrip | src/crypt/base64.c:27-124 | Decoding inverts encoding for every non-empty octet string (section 4 of RFC 4648) |
| Base64.AlphabetIs | src/crypt/base64.c:25-25 | The table has A to Z, a to z, 0 to 9, + and / in this order, and a character is found at its place |
| Base64.GroupIsNumber | src/crypt/base64.c:27-53 | Three octets are one number of 24 bits written with four digits to the base 64; one or two are filled up with zeros and padded (section 4 of RFC 4648) |
| Base64.TextOfGroup | src/crypt/base64.c:27-53 | Group by group that is the text of any octets |
| Base64.OctetsOfGroup | src/crypt/base64.c:55-124 | Group by group what any accepted text decodes to: the octets of the number its characters stand for, a foreign character counting as zero, and one or two octets fewer for the padding at the end |
| Base64.ReencodeIffCanonical | src/crypt/base64.c:27-124 | Encoding inverts decoding exactly on canonical text (section 3.5 of RFC 4648) |
| Base64.EncodeBuffer | src/crypt/base64.c:27-53 | The encoding loop fills its buffer with the encoding |
| Base64.DecodeBuffer | src/crypt/base64.c:55-124 | For every non-empty text all writes stay inside a buffer of the computed length, which ends up holding the decoded octets; a length not divisible by four is refused |
| Base64.Lookup | src/crypt/base64.c:81-112 | The position of a character in the alphabet, zero for another character |
| Base64.LastGroupFits | src/crypt/base64.c:57-72 | Every octet the decoder keeps lies inside the computed length |
| Base64.GuardMatchesDecoder | src/coder/coder.c:876-889 | The length estimated for the password of a request is the decoded length, so a guarded password stays below 256 octets |
| Hex.RoundTrip | src/crypt/bcd.c:58-118 | Decoding inverts encoding for every non-empty buffer and every separator that is not a digit, or none (section 8 of RFC 4648 for the unseparated form) |
| Hex.DigitIs | src/crypt/bcd.c:33-55 | A digit is written in upper case and read in either, with the same value, and no other character is one |
| Hex.TextAt | src/crypt/bcd.c:58-85 | The text has the two digits of each octet, the higher first, and with a separator that is no digit that character between octets |
| Hex.DigitSeparatorUnused | src/crypt/bcd.c:58-85 | A separator that is a digit is not used |
| Hex.OctetAt | src/crypt/bcd.c:92-118 | Of an even number of digits each pair is one octet, its first digit the higher half |
| Hex.ScanIs | src/crypt/bcd.c:92-118 | What the scanner makes of any text: two characters are one octet, a character that is no digit and a missing second one count as zero, and one character behind them that is no digit is stepped over |
| Hex.DecodesIff | src/crypt/bcd.c:92-118 | A text is decoded if and only if it begins with two digits |
| Hex.EncodeBuffer | src/crypt/bcd.c:58-85 | The encoding loop fills its buffer with the text and a NUL |
| Hex.DecodeBuffer | src/crypt/bcd.c:92-118 | For any text the loop gives the decoded octets; it reads past the NUL if and only if the scanner starts on a lone last character, and writes past a buffer of half the text's length if and only if the text is an odd run |
| Hex.OverrunsIff | src/crypt/bcd.c:92-118 | The scanner writes more than half the text's length of octets exactly for an odd text with a digit wherever a pair could begin |
| Hex.LoneCharacters | src/crypt/bcd.c:92-118 | One text that leaves the buffer and one that only leaves the text |
| StoredPassword.SurvivesSaving | src/auth/auth-basic.c:945-962 | A password is read back from its saved form exactly when it has at least 8 octets |
| StoredPassword.WrittenAs | src/auth/auth-basic.c:945-962 | A password is written as the three characters of the token and two upper-case digits for each octet, and none as a star |
| StoredPassword.PlainTextIsItself | src/auth/auth-pwd.c:113-121 | A text of at least 8 characters that does not begin like a token is the password, character by character |
| StoredPassword.ShortTextIsNone | src/auth/auth-pwd.c:136-169 | A shorter one is none |
| StoredPassword.TokenIs | src/auth/auth-pwd.c:136-169 | A token is accepted if and only if its digits are an even number of at least sixteen or it has a star; two digits of either case are one octet, the star is the empty password, and another figure than 0 is refused |
| StoredPassword.HexTokenDecodes | src/auth/auth-pwd.c:44-57 | Every string that passes the hexadecimal check decodes to half its length |
| StoredPassword.CheckHexToken | src/auth/auth-pwd.c:44-57 | The loop accepts exactly the even strings of at least 16 digits |
| Framing.RoundTrip | src/transport/transport.c:245-412 | Any sequence of payloads without form feed and NUL, written and read, comes back unchanged |
| Framing.OnlyInterruptedDamaged | src/transport/transport.c:245-340 | With any number of timeouts in any frames only the interrupted payloads are damaged, each down to its last part |
| Framing.OneTimeout | src/transport/transport.c:245-340 | A timeout anywhere in one of many written payloads fails one read and shortens that payload; every payload before and after it comes back |
| Framing.ComesBackIff | src/transport/transport.c:311-340 | One payload comes back exactly when it has neither the octet 12 nor the octet 0 |
| Framing.WrittenAs | src/transport/transport.c:373-412 | Each payload is followed by the octet 12 |
| Framing.HowReadsFail | src/transport/transport.c:311-340 | A read that meets the loss of the connection before a frame ends reports it, one that meets a timeout or nothing only fails, and what was read of the frame is gone |
| Framing.Flux.ReadTerm | src/transport/transport.c:245-305 | The reading loop stores every octet inside the growing buffer and ends as the stream does |
| Framing.Flux.Grow | src/transport/transport.c:234-243 | The buffer has room for the next octet and keeps what it held |
| Framing.Flux.ReadPayload | src/transport/transport.c:311-340 | The payload without its ending octet, or the kind of failure |
| Framing.Flux.WritePayload | src/transport/transport.c:373-412 | The payload and its form feed go out in one write, which succeeds if and only if the connection takes them all; otherwise what it took stays on the wire |
| Framing.Flux.Write | src/transport/transport.c:396-404 | A write takes as many octets as there is room for, or fails |
| Framing.ShortWriteJoins | src/transport/transport.c:245-412 | What a failed write left on the wire is read as the front of the next payload |
| Negotiation.Negotiate | src/cyber/cyber.c:499-916 | For every offered list, if both exchanges complete both ends hold the same cipher, enabled at both, the last offered one the leader enables; with the follower's own offer they complete exactly when a cipher is enabled at both, and that is the last one of the follower's table that both tables enable |
| Negotiation.Endpoint.Leader | src/cyber/cyber.c:762-916 | The last offered cipher the leader enables is taken and sent back; there is no valid cipher exactly when the leader enables none of the list |
| Negotiation.Endpoint.Follower | src/cyber/cyber.c:553-599 | The reply is accepted exactly when it comes from the known site and names one cipher the follower enables |
| Negotiation.Endpoint.CheckSite | src/cyber/cyber.c:799-808 | An unknown peer's site is remembered, another one than the known refused |
| Negotiation.Endpoint.Offer | src/cyber/cyber.c:468-478 | The enabled ciphers in the order of the table |
| Negotiation.Endpoint.Find | src/cipher/cipher.c:136-146 | The position of a named cipher, found exactly when the table has it |
| Negotiation.Endpoint.LetEnabled | src/cipher/cipher.c:160-174 | Exactly the named cipher's flag is set |
| Negotiation.OfferedIff | src/cyber/cyber.c:468-478 | A name is offered exactly when the table enables it |
| Negotiation.OfferedInOrder | src/cyber/cyber.c:468-478 | The offer of two tables in a row is the offer of the first and then that of the second |
| Negotiation.LastOffered | src/cyber/cyber.c:851-868 | The last of the follower's offers that the leader enables is the last cipher of the follower's table that both tables enable |

## Left out

- Rotation.RotatesIff: requires that the other side can take this side's challenge up from the start. Where only the other side's challenge can be, the lemma with the sides exchanged is about that one, and a second round of this side in the same session is not covered; where neither can be, `Crossing.CrossingForEver` holds. The half that says no run rotates, `Unanswered.NeverRotated`, has no such condition.
- Reconnection.ReconnectIff: requires the same of the state after the first scans.
- Recovery.RoundCompletes: covers rounds in which the other side's scans find nothing to begin; where both sides begin one, `Crossing` and `Rotation` have the results.
- Recovery.RoundHappens: the same.
- A restart of the process in a run of `KeyThreads` or `ReceiverKeys`: a run there is one process life, from a start with empty caches, at any reachable state.
- A key that a thread has fetched before a purge and uses after it: a late thread uses the old key until the purge only.
- Crossings with a candidate equal to the password it replaces: both elements of the challenge open then, and `Crossing.CrossingEndsIff` leaves them out; `Rotation.RotatesIff` covers them.
- Concurrent flush of a message queue: no run has a flush beside a push or a pull.
- The moment between the write of `auth.db` and the purge of the key: the two are one step, since no other thread reads the file.
- KeyCaches.StepRefines: takes the look-up, the derivation and the storing of a key as one step; `KeyRace` cuts them and says exactly when that matters, and `KeyThreads` and `ReceiverKeys` that it never does in a session.
- Failed allocations and failed writes: every allocation and every save succeeds.
- The file mechanics of `auth.db`: it is opened without truncation in the source, mapped and split into tokens; here it is an atomically replaced snapshot of rows. The `active` column is forced to 1 on load, so every credential is active.
- The pad of a ping, the time of sending of a challenge, the validity window of received timestamps, the acknowledgement messages and the text form of messages.
- Reading and printing of JSON text: a JSON value is its tree, the order of its members is not kept, and a non-array under an array descriptor, which aborts in json-c, reads as a failure.
- Byte order and padding of message memory: a message is a map from offsets to slots.
- `ldc_mutex_extract_by_key`: it does not update the count and the queue does not use it; insertion with a comparison belongs to a library that is not part of this model.
- The read and write locks of the credential index and its purge at exit.
- Credentials.LoadInvertsSave: the time stamp of a row is the number itself, while the file holds it as a formatted date.
- Session.Session.SaveDatabase: the file has the credentials of one remote site only, while `auth.db` holds those of all sites.
- Session.Session.EncodeChallenge: the pad of the ping and the time of sending kept in the context are not modelled.
- Session.Session.SendAllClear: the event raised when both AllClear have passed is not modelled.
- Session.Session.SendNext: it seals with the password of memory; that the cached key may be the one before is in `KeyCaches` and in the steps of `Network`.
- Session.Session.Deliver: it opens with the password of memory, as above.
- Base64.DecodeBuffer: requires a non-empty text; for an empty one, and in the length guard for a text of one character, the C code reads before the buffer.
- The order of two messages whose seals fall in one step: a queued message is sealed when the send thread takes it.
- A second live session of the same pair of peers, and messages that survive a lost connection.
- Passwords above 84 octets, where the padding length of a challenge overflows a `char`.
- Thread start and stop, sockets, events, logging, command line, message constructors and version checks: plumbing.
- Password hashing and comparison in `src/auth/auth-pwd.c`: finite helpers that would add only easy members.
