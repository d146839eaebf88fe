TestResult.DisplayName,TestResult.Outcome,TestResult.Duration,TestResult.ResourceCount,RandomSeed
EventChain.Trace (well-formedness),Passed,00:00:00.1897107,63510,2
EventChain.AllPass (well-formedness),Passed,00:00:00.1838154,15819,2
EventChain.Dispatch (correctness),Passed,00:00:00.1285715,441360,2
EventChain.FullTraceMeansPassing (well-formedness),Passed,00:00:00.0775473,27423,2
EventChain.TraceCallsAll (correctness),Passed,00:00:00.0654320,45181,2
EventChain.TraceOfAppended (correctness),Passed,00:00:00.0624807,141687,2
EventChain.WithoutConcat (correctness),Passed,00:00:00.0537155,137945,2
EventChain.TraceStopsAtFirstFalse (correctness),Passed,00:00:00.0443531,88953,2
EventChain.Without (well-formedness),Passed,00:00:00.0409106,67513,2
EventChain.TraceShortCircuits (correctness),Passed,00:00:00.0328095,68708,2
EventChain.RemoveUndoesAdd (correctness),Passed,00:00:00.0291513,48389,2
EventChain.FullTraceMeansPassing (correctness),Passed,00:00:00.0271414,42949,2
EventChain.TraceStep (correctness),Passed,00:00:00.0263020,28499,2
EventChain.TraceStep (well-formedness),Passed,00:00:00.0262258,24113,2
EventChain.TraceOfPrepended (correctness),Passed,00:00:00.0251769,32106,2
EventChain.TraceStopsAtFirstFalse (well-formedness),Passed,00:00:00.0251311,25282,2
EventChain.TraceNeverPassesFalse (well-formedness),Passed,00:00:00.0243863,22639,2
EventChain.TraceShortCircuits (well-formedness),Passed,00:00:00.0230016,26214,2
EventChain.ReAddRestores (correctness),Passed,00:00:00.0227540,29467,2
EventChain.TrueAnswerNeverStops (correctness),Passed,00:00:00.0210922,28751,2
EventChain.TraceOfPrepended (well-formedness),Passed,00:00:00.0199213,28517,2
EventChain.TraceNeverPassesFalse (correctness),Passed,00:00:00.0192842,30695,2
EventChain.WithoutAbsent (correctness),Passed,00:00:00.0192467,36555,2
EventChain.TrueAnswerNeverStops (well-formedness),Passed,00:00:00.0190050,23398,2
EventChain.WithoutIdempotent (correctness),Passed,00:00:00.0170172,24045,2
