TestResult.DisplayName,TestResult.Outcome,TestResult.Duration,TestResult.ResourceCount,RandomSeed
EventChain.Trace (well-formedness),Passed,00:00:00.2103770,57459,1
EventChain.AllPass (well-formedness),Passed,00:00:00.2051065,15805,1
EventChain.Dispatch (correctness),Passed,00:00:00.1206043,274538,1
EventChain.FullTraceMeansPassing (well-formedness),Passed,00:00:00.0883204,27508,1
EventChain.TraceStopsAtFirstFalse (correctness),Passed,00:00:00.0879805,179626,1
EventChain.TraceCallsAll (correctness),Passed,00:00:00.0879517,41450,1
EventChain.WithoutConcat (correctness),Passed,00:00:00.0784096,138348,1
EventChain.Without (well-formedness),Passed,00:00:00.0521941,81589,1
EventChain.TraceOfAppended (correctness),Passed,00:00:00.0505069,118134,1
EventChain.TraceShortCircuits (correctness),Passed,00:00:00.0439491,69515,1
EventChain.TraceOfPrepended (well-formedness),Passed,00:00:00.0402881,28526,1
EventChain.RemoveUndoesAdd (correctness),Passed,00:00:00.0392705,48327,1
EventChain.TraceOfPrepended (correctness),Passed,00:00:00.0373361,32089,1
EventChain.FullTraceMeansPassing (correctness),Passed,00:00:00.0354177,42701,1
EventChain.TraceStep (correctness),Passed,00:00:00.0326498,28516,1
EventChain.TraceStep (well-formedness),Passed,00:00:00.0323777,24129,1
EventChain.TrueAnswerNeverStops (correctness),Passed,00:00:00.0321195,28718,1
EventChain.WithoutAbsent (correctness),Passed,00:00:00.0295531,34409,1
EventChain.WithoutIdempotent (correctness),Passed,00:00:00.0284696,24050,1
EventChain.TraceNeverPassesFalse (correctness),Passed,00:00:00.0283976,30499,1
EventChain.TraceShortCircuits (well-formedness),Passed,00:00:00.0283455,26225,1
EventChain.ReAddRestores (correctness),Passed,00:00:00.0281942,29351,1
EventChain.TraceStopsAtFirstFalse (well-formedness),Passed,00:00:00.0267865,25298,1
EventChain.TraceNeverPassesFalse (well-formedness),Passed,00:00:00.0229328,22636,1
EventChain.TrueAnswerNeverStops (well-formedness),Passed,00:00:00.0213167,23414,1
