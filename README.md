# PHP design-pattern demos, modelled in Dafny

This project models the parts of a PHP teaching collection of design patterns that have
behaviour worth stating:

- **Chain of Responsibility** (`handlers.dfy`, `tickets.dfy`, `levels.dfy`): tickets carry one of
  three levels; handlers are linked through a mutable successor reference; each handler answers
  a ticket of its own level with a fixed message and forwards every other ticket; a ticket that
  falls off the end of the chain gets PHP's `null`. The three PHP handler classes differ only in
  the level they match and the word naming them ("one", "two", "three"), so one `Handler` class
  with a constant `level` stands for all three. `Handle` and `Next` are mutually recursive
  functions that take a ghost list of the handlers the ticket visits, ending at a handler of the
  ticket's level or at one without a successor; such a finite walk exists exactly when handling
  terminates, which PHP never checks (`setNext` can close a cycle). The walk is proved equal to
  `Route`, a reference definition over the sequence of handler levels; the answer is proved to
  depend only on the links, the walk to stop at the first matching handler even when a cycle
  follows it, and no walk to exist for a ticket whose level is missing from a cycle the walk enters,
  whether it starts on the cycle or reaches it after other non-matching handlers.
- **Builder** (`cars.dfy`, `builders.dfy`): a builder writes the properties of the car it holds
  one at a time and returns itself; `getCar` hands out the held car itself; `reset` installs a
  fresh car; the Porsche director writes five fixed values. Car properties are typed and have no
  default, so reading one before it is written raises PHP's `Error`; the model keeps each
  property as an `Option` and the getters return a `Result`.
- **Strategy** (`payments.dfy`): the payment service selects its method by key at construction
  ("paypal" or "stripe", compared strictly) and throws `InvalidArgumentException` otherwise.
- **Factory Method** (`documents.dfy`): `getCreator` maps "json" and "pdf" to a creator and any
  other string to `null`; a creator's template method generates the document its factory method
  makes.
- **Singleton** (`singleton.dfy`): the static instance slot is empty until the first
  `getInstance`, whose arguments fix host and port for good; unserialising always throws.
- **Prototype** (`prototype.dfy`): cloning a person also clones the address, so the copy shares
  no object with the original.
- **Adapter** (`adapters.dfy`): a notifier sends through an e-mail adapter or an SMS adapter onto
  services that format a confirmation string.

`outcomes.dfy` holds the shapes shared by all of them: `Option` for PHP's `null` and `Result`
for a value or a thrown exception (its class name and message).

## Model

| member | source | states |
|---|---|---|
| Levels.Value | src/BehavioralDesignPattern/ChainOfResponsabilityDesignPattern/Enum/LevelEnum.php:8-10 | the backing string of each case (`->value`) is "Level" followed by the case's own word: "One", "Two" or "Three", and that word identifies the case |
| Levels.TryFrom | src/BehavioralDesignPattern/ChainOfResponsabilityDesignPattern/Enum/LevelEnum.php:6-11 | PHP's `tryFrom` of the backed enum: a found case has the given backing string; no case is found only when no case has it |
| Levels.ValueRoundTrip | src/BehavioralDesignPattern/ChainOfResponsabilityDesignPattern/Enum/LevelEnum.php:8-10 | every case is recovered from its backing string |
| Levels.ValueInjective | src/BehavioralDesignPattern/ChainOfResponsabilityDesignPattern/Handlers/HandlerLevelOne.php:15 | two cases have equal backing strings exactly when they are the same case, so the handlers' string comparison is a comparison of cases |
| Tickets.Ticket.constructor | src/BehavioralDesignPattern/ChainOfResponsabilityDesignPattern/Data/Ticket.php:13-18 | title, content and level are stored as given |
| Tickets.Ticket.GetLevel | src/BehavioralDesignPattern/ChainOfResponsabilityDesignPattern/Data/Ticket.php:19-22 | returns the current level and changes nothing |
| Tickets.Ticket.SetLevel | src/BehavioralDesignPattern/ChainOfResponsabilityDesignPattern/Data/Ticket.php:23-26 | replaces only the level and returns the new level; title unchanged, content constant |
| Tickets.Ticket.GetTitle | src/BehavioralDesignPattern/ChainOfResponsabilityDesignPattern/Data/Ticket.php:28-31 | returns the current title and changes nothing |
| Tickets.Ticket.GetContent | src/BehavioralDesignPattern/ChainOfResponsabilityDesignPattern/Data/Ticket.php:32-35 | returns the current content and changes nothing |
| Tickets.Ticket.UpdateTitle | src/BehavioralDesignPattern/ChainOfResponsabilityDesignPattern/Data/Ticket.php:36-39 | replaces only the title; level unchanged, content constant |
| Tickets.Ticket.SetTitle | src/BehavioralDesignPattern/ChainOfResponsabilityDesignPattern/Data/Ticket.php:40-43 | the same effect as UpdateTitle: replaces only the title |
| Tickets.ContentSurvivesSetters | src/BehavioralDesignPattern/ChainOfResponsabilityDesignPattern/Data/Ticket.php:10 | content has no mutator (it is a constant field): after any setters the content is the one constructed, while title and level are the last ones set, with two different titles set in turn |
| Handlers.MessageLayout | src/BehavioralDesignPattern/ChainOfResponsabilityDesignPattern/Handlers/HandlerLevelOne.php:16 | a handler's answer is the fixed head "this ticket is being handling by handler ", then the handler's word ("one", "two", "three"; HandlerLevelTwo.php:13, HandlerLevelThree.php:13), then " and ticket level is ", then the ticket level's backing string, and nothing else |
| Handlers.MessageInjective | src/BehavioralDesignPattern/ChainOfResponsabilityDesignPattern/Handlers/HandlerLevelOne.php:16 | the answers of different handlers differ, so an answer names the handler that gave it |
| Handlers.Route | src/BehavioralDesignPattern/ChainOfResponsabilityDesignPattern/Handlers/Base/BaseHandler.php:15-21 | reference walk over the handler levels: an answer is always the message for the ticket's level, and there is no answer exactly when no handler has the ticket's level |
| Handlers.RouteFirstMatch | src/BehavioralDesignPattern/ChainOfResponsabilityDesignPattern/Handlers/Base/BaseHandler.php:15-21 | the first handler whose level is the ticket's gives the answer |
| Handlers.Handler.constructor | src/BehavioralDesignPattern/ChainOfResponsabilityDesignPattern/Handlers/Base/BaseHandler.php:8 | a new handler of the given level has no successor |
| Handlers.Handler.SetNext | src/BehavioralDesignPattern/ChainOfResponsabilityDesignPattern/Handlers/Base/BaseHandler.php:10-13 | the successor becomes the argument, replacing any earlier one; only this handler's link is written |
| Handlers.Handler.Handle | src/BehavioralDesignPattern/ChainOfResponsabilityDesignPattern/Handlers/HandlerLevelOne.php:12-19 | whenever the walk from the handler stops (at a matching handler or at the end), handling a ticket gives exactly the reference walk over the chain's levels, reading and writing nothing else |
| Handlers.Handler.Next | src/BehavioralDesignPattern/ChainOfResponsabilityDesignPattern/Handlers/Base/BaseHandler.php:15-21 | with no successor the answer is `null`; otherwise it is the walk over the rest of the chain with the same ticket |
| Handlers.PathsAgree | src/BehavioralDesignPattern/ChainOfResponsabilityDesignPattern/Handlers/Base/BaseHandler.php:10-13 | two walks from the same handler agree step by step: the successor links decide them |
| Handlers.HandleIgnoresWitness | src/BehavioralDesignPattern/ChainOfResponsabilityDesignPattern/Handlers/Base/BaseHandler.php:15-21 | the answer is determined by the handlers and their links alone, not by which walk witnesses termination |
| Handlers.HasMatchingOnBoth | src/BehavioralDesignPattern/ChainOfResponsabilityDesignPattern/Handlers/Base/BaseHandler.php:15-21 | a walk cannot stop before a matching handler that another walk from the same handler meets |
| Handlers.WalkStopsAtFirstMatch | src/BehavioralDesignPattern/ChainOfResponsabilityDesignPattern/Handlers/HandlerLevelOne.php:15-18 | a ticket's walk ends at the first handler of its level and answers there; handlers after it are never reached, even if they form a cycle |
| Handlers.UnmatchedCycleNeverStops | src/BehavioralDesignPattern/ChainOfResponsabilityDesignPattern/Handlers/Base/BaseHandler.php:10-21 | on a cycle of handlers none of which has the ticket's level, no walk stops: handling never returns |
| Handlers.UnmatchedLoopAheadNeverStops | src/BehavioralDesignPattern/ChainOfResponsabilityDesignPattern/Handlers/Base/BaseHandler.php:10-21 | a walk that passes handlers lacking the ticket's level and then enters a closed cycle also lacking it never stops: handling recurses forever even when it does not start on the cycle |
| Handlers.SuccessorOnCycle | src/BehavioralDesignPattern/ChainOfResponsabilityDesignPattern/Handlers/Base/BaseHandler.php:10-13 | the successor of a handler on a closed cycle is on the cycle |
| Handlers.WalkStaysOnCycle | src/BehavioralDesignPattern/ChainOfResponsabilityDesignPattern/Handlers/Base/BaseHandler.php:15-21 | every step of a walk from a cycle's head stays on that cycle |
| Handlers.DemoChain | src/BehavioralDesignPattern/ChainOfResponsabilityDesignPattern/index.php:23-27 | linking one to two and two to three builds a `null`-terminated chain of levels one, two, three |
| Handlers.DemoChainAnswersEveryLevel | src/BehavioralDesignPattern/ChainOfResponsabilityDesignPattern/index.php:23-28 | on that chain every ticket is answered by the handler of its own level |
| Handlers.LevelOneMessage | src/BehavioralDesignPattern/ChainOfResponsabilityDesignPattern/Handlers/HandlerLevelOne.php:15-16 | handler one's answer to a level-one ticket spelled out |
| Handlers.LevelTwoMessage | src/BehavioralDesignPattern/ChainOfResponsabilityDesignPattern/Handlers/HandlerLevelTwo.php:12-13 | handler two's answer to a level-two ticket spelled out |
| Handlers.LevelThreeMessage | src/BehavioralDesignPattern/ChainOfResponsabilityDesignPattern/Handlers/HandlerLevelThree.php:12-13 | handler three's answer to a level-three ticket spelled out |
| Handlers.DemoLevelThree | src/BehavioralDesignPattern/ChainOfResponsabilityDesignPattern/index.php:17-28 | the level-three ticket handed to the head of the demo chain gets handler three's message |
| Handlers.LastLinkDropsOthers | src/BehavioralDesignPattern/ChainOfResponsabilityDesignPattern/Handlers/HandlerLevelTwo.php:10-16 | a handler with no successor answers its own level and gives `null` for every other level, without an error |
| Handlers.CycleAnswersOnlyMatched | src/BehavioralDesignPattern/ChainOfResponsabilityDesignPattern/Handlers/Base/BaseHandler.php:10-21 | two handlers linked to each other still answer a level-two ticket, while a level-three ticket has no terminating walk |
| Handlers.LoopAheadNeverAnswers | src/BehavioralDesignPattern/ChainOfResponsabilityDesignPattern/Handlers/Base/BaseHandler.php:10-21 | handler one followed by handler two linked to itself: no walk stops for a level-three ticket |
| Handlers.RewireReplacesSuccessor | src/BehavioralDesignPattern/ChainOfResponsabilityDesignPattern/Handlers/Base/BaseHandler.php:12 | after two `setNext` calls only the second successor is in the chain |
| Cars.Read | CreationalDesignPattern/LaravelBuilderDesignPattern/app/Builder/Car.php:7-11 | reading a property succeeds exactly when it has been written, with its value; before that it raises PHP's `Error` |
| Cars.Car.constructor | CreationalDesignPattern/LaravelBuilderDesignPattern/app/Builder/Car.php:5-11 | a new car has no property written |
| Cars.Car.GetModel | CreationalDesignPattern/LaravelBuilderDesignPattern/app/Builder/Car.php:14-17 | returns the model once written, an error before; no side effect |
| Cars.Car.GetYearOfRelease | CreationalDesignPattern/LaravelBuilderDesignPattern/app/Builder/Car.php:20-23 | returns the year of release once written, an error before; no side effect |
| Cars.Car.GetPrice | CreationalDesignPattern/LaravelBuilderDesignPattern/app/Builder/Car.php:26-29 | returns the price once written, an error before; no side effect |
| Cars.Car.GetBrand | CreationalDesignPattern/LaravelBuilderDesignPattern/app/Builder/Car.php:32-35 | returns the brand once written, an error before; no side effect |
| Cars.Car.GetTopSpeed | CreationalDesignPattern/LaravelBuilderDesignPattern/app/Builder/Car.php:38-41 | returns the top speed once written, an error before; no side effect |
| Cars.GettersOfNewCarFail | CreationalDesignPattern/LaravelBuilderDesignPattern/app/Builder/Car.php:7-11 | the getters of a car nobody has written to all raise errors |
| Builders.ConcreteBuilder.constructor | src/CreationalDesignPattern/BuilderDesignPattern/Builder/ConcreteBuilder.php:10-13 | a new builder holds a fresh car with nothing written |
| Builders.ConcreteBuilder.BuildModel | src/CreationalDesignPattern/BuilderDesignPattern/Builder/ConcreteBuilder.php:14-18 | writes the model of the held car, leaves its other four properties, returns the builder itself |
| Builders.ConcreteBuilder.BuildYearOfRelease | src/CreationalDesignPattern/BuilderDesignPattern/Builder/ConcreteBuilder.php:20-24 | writes the year of release only, returns the builder itself |
| Builders.ConcreteBuilder.BuildPrice | src/CreationalDesignPattern/BuilderDesignPattern/Builder/ConcreteBuilder.php:26-30 | writes the price only, returns the builder itself |
| Builders.ConcreteBuilder.BuildBrand | src/CreationalDesignPattern/BuilderDesignPattern/Builder/ConcreteBuilder.php:32-36 | writes the brand only, returns the builder itself |
| Builders.ConcreteBuilder.BuildTopSpeed | src/CreationalDesignPattern/BuilderDesignPattern/Builder/ConcreteBuilder.php:38-42 | writes the top speed only, returns the builder itself |
| Builders.ConcreteBuilder.GetCar | src/CreationalDesignPattern/BuilderDesignPattern/Builder/ConcreteBuilder.php:44-47 | returns the held car object itself, not a copy |
| Builders.ConcreteBuilder.Reset | src/CreationalDesignPattern/BuilderDesignPattern/Builder/ConcreteBuilder.php:48-51 | installs a fresh car with nothing written |
| Builders.GetCarAliasesHeldCar | src/CreationalDesignPattern/BuilderDesignPattern/Builder/ConcreteBuilder.php:14-18 | build steps chain through the returned builder, the second write of a property wins, and a car obtained earlier from `getCar` sees the writes |
| Builders.ResetDetachesEarlierCar | src/CreationalDesignPattern/BuilderDesignPattern/Builder/ConcreteBuilder.php:48-51 | after `reset`, a car obtained before keeps its values while the builder's new car gets the later writes |
| Builders.PorcheBuilder.constructor | src/CreationalDesignPattern/BuilderDesignPattern/Builder/PorcheBuilder.php:9 | a new director has no builder |
| Builders.PorcheBuilder.SetBuilder | src/CreationalDesignPattern/BuilderDesignPattern/Builder/PorcheBuilder.php:10-13 | stores the builder to drive, replacing any earlier one |
| Builders.PorcheBuilder.BuildPorche | src/CreationalDesignPattern/BuilderDesignPattern/Builder/PorcheBuilder.php:14-22 | with a builder stored: its car ends with brand 'Porche', model 'Cayenne', year '2021', price 300000 and top speed 210, and that same builder is returned; with none: PHP's `Error` for a call on `null` |
| Builders.PorcheWithoutBuilder | src/CreationalDesignPattern/BuilderDesignPattern/Builder/PorcheBuilder.php:16 | a director used before `setBuilder` fails with an `Error` |
| Builders.PorcheDemo | src/CreationalDesignPattern/BuilderDesignPattern/index.php:10-15 | after the director drives a new builder, that builder's car has brand "Porche" and price 300000 |
| Payments.PaymentService.Pay | src/BehavioralDesignPattern/StrategyPattern/Services/PaymentService.php:24-27 | a payment returns the text of the method chosen at construction |
| Payments.NewPaymentService | src/BehavioralDesignPattern/StrategyPattern/Services/PaymentService.php:15-22 | a service exists exactly for the keys "paypal" and "stripe", its method is the one the key names, and any other key throws `InvalidArgumentException("no payment method selected")` |
| Payments.KeySelects | src/BehavioralDesignPattern/StrategyPattern/Services/PaymentService.php:17-19 | each method is selected by its own key and by no other string |
| Payments.PayByKey | src/BehavioralDesignPattern/StrategyPattern/PaymentMethods/PaypalPaymentMethod.php:9-12 | what a payment returns depends only on the key: the PayPal text for "paypal", the Stripe text for "stripe" |
| Payments.SelectionIsCaseSensitive | src/BehavioralDesignPattern/StrategyPattern/Services/PaymentService.php:17-21 | "PayPal" and "Stripe" are refused: selection is exact |
| Payments.PaymentDemo | src/BehavioralDesignPattern/StrategyPattern/index.php:5-17 | "stripe" and "paypal" pay with their texts; "invalid" throws and no payment runs |
| Documents.DocumentCreator.CreateDocument | src/CreationalDesignPattern/FactoryMethodPattern/Creators/JsonDocumentCreator.php:10-13 | each creator's factory method makes its own kind of generator: the JSON creator a JSON generator and the PDF creator (PdfDocumentCreator.php:10-13) a PDF one, and no other |
| Documents.DocumentCreator.Create | src/CreationalDesignPattern/FactoryMethodPattern/Creators/DocumentCreator.php:10-14 | the template method returns what the factory method's product generates: the JSON text for the JSON creator, the PDF text for the PDF creator |
| Documents.GetCreator | src/CreationalDesignPattern/FactoryMethodPattern/index.php:28-38 | a creator exists exactly for "json" and "pdf", and it is the one the string names; any other string gives `null` |
| Documents.GetCreatorRoundTrip | src/CreationalDesignPattern/FactoryMethodPattern/index.php:30-34 | selecting by a creator's own type string gives back that creator |
| Documents.CreateDistinguishesCreators | src/CreationalDesignPattern/FactoryMethodPattern/Generators/JsonDocumentGenerator.php:9-12 | two creators generate the same text exactly when they are the same creator |
| Documents.DocumentDemo | src/CreationalDesignPattern/FactoryMethodPattern/index.php:13-23 | "pdf" and "json" generate their documents and "null" gives no creator |
| Singleton.DatabaseInstance.constructor | CreationalDesignPattern/SignletonDesignPattern/src/DatabaseInstance.php:15-19 | host and port are stored, and being constants never change afterwards |
| Singleton.DatabaseInstance.Wakeup | CreationalDesignPattern/SignletonDesignPattern/src/DatabaseInstance.php:34-37 | unserialising always throws "Cannot unserialize a singleton." |
| Singleton.SingletonSlot.constructor | CreationalDesignPattern/SignletonDesignPattern/src/DatabaseInstance.php:8 | the instance slot starts empty |
| Singleton.SingletonSlot.GetInstance | CreationalDesignPattern/SignletonDesignPattern/src/DatabaseInstance.php:21-28 | the first call creates a fresh instance from its arguments; every later call returns that same instance and ignores its arguments; the slot is never emptied again |
| Singleton.FirstRequestWins | CreationalDesignPattern/SignletonDesignPattern/src/DatabaseInstance.php:23-27 | two requests with different arguments get the same instance, with the first request's host and port |
| Prototype.Address.constructor | src/CreationalDesignPattern/PrototypeDesignPattern/Address.php:13-17 | city and street are stored as given |
| Prototype.Address.SetCity | src/CreationalDesignPattern/PrototypeDesignPattern/Address.php:19-22 | replaces only the city |
| Prototype.Address.GetCity | src/CreationalDesignPattern/PrototypeDesignPattern/Address.php:24-27 | returns the current city and changes nothing |
| Prototype.Address.GetStreet | src/CreationalDesignPattern/PrototypeDesignPattern/Address.php:30-33 | returns the current street and changes nothing |
| Prototype.Address.SetStreet | src/CreationalDesignPattern/PrototypeDesignPattern/Address.php:35-38 | replaces only the street |
| Prototype.Address.Clone | src/CreationalDesignPattern/PrototypeDesignPattern/PersonPrototype.php:21 | the clone of an address is a new object with the same city and street |
| Prototype.PersonPrototype.constructor | src/CreationalDesignPattern/PrototypeDesignPattern/PersonPrototype.php:11-16 | name, age and the address object itself are stored |
| Prototype.PersonPrototype.Clone | src/CreationalDesignPattern/PrototypeDesignPattern/PersonPrototype.php:18-22 | the clone is a new person with a new address object, and equal name, age, city and street |
| Prototype.PersonPrototype.SetName | src/CreationalDesignPattern/PrototypeDesignPattern/PersonPrototype.php:24-27 | replaces only the name; age has no mutator and is a constant field |
| Prototype.PersonPrototype.GetName | src/CreationalDesignPattern/PrototypeDesignPattern/PersonPrototype.php:29-32 | returns the current name and changes nothing |
| Prototype.PersonPrototype.GetAddress | src/CreationalDesignPattern/PrototypeDesignPattern/PersonPrototype.php:34-37 | returns the stored address object itself |
| Prototype.PrototypeDemo | src/CreationalDesignPattern/PrototypeDesignPattern/index.php:8-17 | after renaming the clone, the original is still "John Doe" and both live in "New York" |
| Prototype.CloneAddressIsIndependent | src/CreationalDesignPattern/PrototypeDesignPattern/PersonPrototype.php:18-22 | writing the clone's address leaves the original's city and street as they were |
| Prototype.SharedAddressSeesWrites | src/CreationalDesignPattern/PrototypeDesignPattern/PersonPrototype.php:34-37 | two persons built on one address object share it: a write through one's `getAddress` shows in the other |
| Adapters.Service.Send | src/StructuralDesignPattern/AdapterDesignPattern/Services/EmailService.php:7-11 | `sendEmail($to, $message)` and `sendSMS($to, $message)` (SmsService.php:6-9): the confirmation is as long as its parts, begins with the service's word, names the recipient right after " sent to ", and ends with the quoted message |
| Adapters.Adapter.SendNotification | src/StructuralDesignPattern/AdapterDesignPattern/Adapters/SmsAdapter.php:15-18 | the e-mail adapter sends to its `to`; the SMS adapter swaps its arguments, so its confirmation names its `message` as recipient |
| Adapters.EmailAdapterForwardsInOrder | src/StructuralDesignPattern/AdapterDesignPattern/Adapters/EmailAdapter.php:15-18 | the e-mail adapter forwards its arguments in order to the e-mail service |
| Adapters.Adapter.SendNotificationCorrected | src/StructuralDesignPattern/AdapterDesignPattern/Contracts/IAppNotificationContract.php:7 | corrected adapters: each confirmation names the adapter's `to` as recipient and quotes its `message` |
| Adapters.Notifier.Notify | src/StructuralDesignPattern/AdapterDesignPattern/Services/Notifier.php:13-16 | as written: through the e-mail adapter the confirmation names `notify`'s `message` as recipient; through the SMS adapter it names `to` |
| Adapters.Notifier.NotifyCorrected | src/StructuralDesignPattern/AdapterDesignPattern/Services/Notifier.php:13-16 | corrected: through either adapter `message` is delivered to `to` |
| Adapters.PathsSwapRecipient | src/StructuralDesignPattern/AdapterDesignPattern/Services/Notifier.php:15 | the e-mail path and the SMS path put the recipient in opposite argument positions of `notify` |
| Adapters.EmailToHelloText | src/StructuralDesignPattern/AdapterDesignPattern/Services/EmailService.php:10 | the e-mail confirmation for recipient "Hello" and message "bob@example.com", spelled out |
| Adapters.NotifyEmailMisroutes | src/StructuralDesignPattern/AdapterDesignPattern/Services/Notifier.php:15 | `notify("Hello", "bob@example.com")` by e-mail confirms "Email sent to Hello with message 'bob@example.com'", unlike the corrected notifier |
| Adapters.SmsUnaffectedByCorrection | src/StructuralDesignPattern/AdapterDesignPattern/Adapters/SmsAdapter.php:17 | on the SMS path the notifier's swap and the adapter's swap cancel, so the correction changes nothing there |
| Adapters.AdapterDemo | src/StructuralDesignPattern/AdapterDesignPattern/index.php:13-24 | the script passes the address first by e-mail and the text first by SMS, and both confirmations then name the address or number as recipient |

## Findings

| source | as written | input that shows it | evidently intended | confidence | as-written member | corrected member |
|---|---|---|---|---|---|---|
| src/StructuralDesignPattern/AdapterDesignPattern/Services/Notifier.php:15 | `notify($message, $to)` calls `sendNotification($message, $to)` although the contract's parameters are `($to, $message)`; the SMS adapter swaps again at src/StructuralDesignPattern/AdapterDesignPattern/Adapters/SmsAdapter.php:17 (`sendSMS($message, $to)`), so only the e-mail path ends up reversed; the corrected model removes both swaps | an e-mail notifier's `notify("Hello", "bob@example.com")` returns "Email sent to Hello with message 'bob@example.com'" | both adapters deliver `message` to `to`: "Email sent to bob@example.com with message 'Hello'" | medium (the demo script passes the e-mail address first, working around it); not executed | Adapters.NotifyEmailMisroutes | Adapters.Notifier.NotifyCorrected |

## Left out

- Console output (`echo`, `print_r`, Laravel's `$this->info`), autoloading and the Laravel
  console commands: I/O glue. Their demonstration scripts appear only as scenario methods.
- `DatabaseInstance::connect`: it only prints a string.
- The Laravel copies of the handlers, payment service, adapters and factory method, and the
  facade's payment service: they repeat the modelled code line for line. The Laravel payment
  texts lack the trailing "\n" of the modelled ones.
- The facade demo and its subsystems, the payment methods and the document generators: they
  return fixed strings, which appear here as constants of the components that use them.
- Handlers.Handler.Handle: a `null` ticket (the PHP default argument) makes PHP raise an error on
  `getLevel()`; the model takes a non-null ticket. Handling is modelled only where the walk
  stops; a ticket that circles a cycle forever has no answer in the model.
- Handlers.Handler: PHP's three handler subclasses and their interface dispatch are one class
  with a constant level.
- Builders.ConcreteBuilder: the builder interface `ICarBuilder` has only this implementation, so
  the director holds a `ConcreteBuilder` directly. The error for an uninitialised car property
  omits the PHP namespace from the class name.
- Singleton.SingletonSlot: Dafny has no static mutable fields, so the class's static `$instance`
  is an explicit object; the constructor's `private` visibility and the protected `__clone`
  are not enforced (Dafny has no visibility for members). Port is a string, as the typed
  property declares it.
- Prototype: PHP's built-in shallow `clone` followed by `__clone` is written as explicit
  `Clone` methods that construct the copy.
- Documents.GetCreator and Payments.NewPaymentService: the creators, methods and services are
  values, so "a new object per call" is not distinguished from "the same object".
- Levels.TryFrom: PHP's `from` (which throws) is not modelled; only `tryFrom` is.
