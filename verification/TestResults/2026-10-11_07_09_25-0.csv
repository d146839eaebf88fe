TestResult.DisplayName,TestResult.Outcome,TestResult.Duration,TestResult.ResourceCount,RandomSeed
EventChain.Trace (well-formedness),Passed,00:00:00.1280102,59780,0
EventChain.AllPass (well-formedness),Passed,00:00:00.1143791,15822,0
EventChain.Dispatch (correctness),Passed,00:00:00.0819191,292362,0
EventChain.FullTraceMeansPassing (well-formedness),Passed,00:00:00.0735605,26950,0
EventChain.WithoutConcat (correctness),Passed,00:00:00.0725624,135074,0
EventChain.Without (well-formedness),Passed,00:00:00.0558461,141565,0
EventChain.TraceOfAppended (correctness),Passed,00:00:00.0544826,156558,0
EventChain.RemoveUndoesAdd (correctness),Passed,00:00:00.0349170,48750,0
EventChain.TraceStopsAtFirstFalse (correctness),Passed,00:00:00.0346930,71274,0
EventChain.TraceCallsAll (correctness),Passed,00:00:00.0312897,41332,0
EventChain.TraceShortCircuits (correctness),Passed,00:00:00.0305547,59073,0
EventChain.TraceNeverPassesFalse (correctness),Passed,00:00:00.0300146,30773,0
EventChain.TrueAnswerNeverStops (correctness),Passed,00:00:00.0297756,28727,0
EventChain.TraceStep (well-formedness),Passed,00:00:00.0268284,24114,0
EventChain.WithoutAbsent (correctness),Passed,00:00:00.0258573,36574,0
EventChain.TraceOfPrepended (correctness),Passed,00:00:00.0255734,32100,0
EventChain.TraceStep (correctness),Passed,00:00:00.0248941,28505,0
EventChain.FullTraceMeansPassing (correctness),Passed,00:00:00.0237933,42955,0
EventChain.TraceStopsAtFirstFalse (well-formedness),Passed,00:00:00.0218223,25283,0
EventChain.WithoutIdempotent (correctness),Passed,00:00:00.0215005,24052,0
EventChain.TraceOfPrepended (well-formedness),Passed,00:00:00.0208081,28511,0
EventChain.TrueAnswerNeverStops (well-formedness),Passed,00:00:00.0193566,23397,0
EventChain.ReAddRestores (correctness),Passed,00:00:00.0192678,29521,0
EventChain.TraceNeverPassesFalse (well-formedness),Passed,00:00:00.0192157,22640,0
EventChain.TraceShortCircuits (well-formedness),Passed,00:00:00.0185445,26211,0
