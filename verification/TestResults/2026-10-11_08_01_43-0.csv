TestResult.DisplayName,TestResult.Outcome,TestResult.Duration,TestResult.ResourceCount,RandomSeed
JsText.Trim (well-formedness),Failed,00:00:00.5281745,2020157,3
JsText.NatToString (well-formedness),Passed,00:00:00.1228802,50650,3
JsText.DigitChar (well-formedness),Passed,00:00:00.1007833,60051,3
JsText.TrimStart (well-formedness),Passed,00:00:00.0978476,255737,3
JsText.TrimEndKeepsNonBlankHead (well-formedness),Passed,00:00:00.0789471,16247,3
JsText.TrimEnd (well-formedness),Passed,00:00:00.0510842,118098,3
JsText.NatToStringValue (correctness),Passed,00:00:00.0476835,106966,3
JsText.NatToStringInjective (correctness),Passed,00:00:00.0463315,99100,3
JsText.TrimStartEmptyIffBlank (correctness),Passed,00:00:00.0281213,58191,3
JsText.DecimalValue (well-formedness),Passed,00:00:00.0251869,22335,3
JsText.TrimEmptyIffBlank (correctness),Passed,00:00:00.0202198,40918,3
JsText.NatToStringValue (well-formedness),Passed,00:00:00.0199850,21397,3
JsText.TrimIsEmpty (correctness),Passed,00:00:00.0153190,18990,3
JsText.TrimEndKeepsNonBlankHead (correctness),Passed,00:00:00.0135865,25135,3
JsText.DigitCharInjective (correctness),Passed,00:00:00.0131887,12919,3
JsText.DigitCharInjective (well-formedness),Passed,00:00:00.0130326,7440,3
JsText.IsBlank (well-formedness),Passed,00:00:00.0099462,12179,3
