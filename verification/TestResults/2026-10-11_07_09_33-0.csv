TestResult.DisplayName,TestResult.Outcome,TestResult.Duration,TestResult.ResourceCount,RandomSeed
EventChain.Dispatch (correctness),Passed,00:00:00.2253042,1079481,3
EventChain.AllPass (well-formedness),Passed,00:00:00.1550674,15822,3
EventChain.Trace (well-formedness),Passed,00:00:00.1465057,54907,3
EventChain.TraceCallsAll (correctness),Passed,00:00:00.0723057,45050,3
EventChain.FullTraceMeansPassing (well-formedness),Passed,00:00:00.0662736,26948,3
EventChain.TraceStopsAtFirstFalse (correctness),Passed,00:00:00.0657349,276043,3
EventChain.WithoutConcat (correctness),Passed,00:00:00.0582968,151752,3
EventChain.TraceOfAppended (correctness),Passed,00:00:00.0427440,121554,3
EventChain.TraceShortCircuits (correctness),Passed,00:00:00.0294455,57199,3
EventChain.Without (well-formedness),Passed,00:00:00.0253615,66461,3
EventChain.TraceNeverPassesFalse (correctness),Passed,00:00:00.0245653,30494,3
EventChain.RemoveUndoesAdd (correctness),Passed,00:00:00.0245247,48359,3
EventChain.FullTraceMeansPassing (correctness),Passed,00:00:00.0234514,37705,3
EventChain.TraceOfPrepended (correctness),Passed,00:00:00.0218694,32100,3
EventChain.ReAddRestores (correctness),Passed,00:00:00.0193020,29406,3
EventChain.TraceStep (correctness),Passed,00:00:00.0184793,28499,3
EventChain.TraceStep (well-formedness),Passed,00:00:00.0172413,24114,3
EventChain.WithoutAbsent (correctness),Passed,00:00:00.0170482,34512,3
EventChain.TraceOfPrepended (well-formedness),Passed,00:00:00.0166701,28508,3
EventChain.TrueAnswerNeverStops (correctness),Passed,00:00:00.0165236,28749,3
EventChain.TraceStopsAtFirstFalse (well-formedness),Passed,00:00:00.0154610,25283,3
EventChain.TrueAnswerNeverStops (well-formedness),Passed,00:00:00.0153034,23421,3
EventChain.TraceShortCircuits (well-formedness),Passed,00:00:00.0151965,26196,3
EventChain.TraceNeverPassesFalse (well-formedness),Passed,00:00:00.0136994,22640,3
EventChain.WithoutIdempotent (correctness),Passed,00:00:00.0130556,24063,3
