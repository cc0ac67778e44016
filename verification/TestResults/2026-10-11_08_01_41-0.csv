TestResult.DisplayName,TestResult.Outcome,TestResult.Duration,TestResult.ResourceCount,RandomSeed
JsText.Trim (well-formedness),Passed,00:00:00.5624129,1903578,0
JsText.NatToString (well-formedness),Passed,00:00:00.1814968,58835,0
JsText.DigitChar (well-formedness),Passed,00:00:00.1735739,60098,0
JsText.TrimStart (well-formedness),Passed,00:00:00.1077532,376966,0
JsText.NatToStringValue (correctness),Passed,00:00:00.0872915,132532,0
JsText.DecimalValue (well-formedness),Passed,00:00:00.0817671,22353,0
JsText.NatToStringValue (well-formedness),Passed,00:00:00.0730682,21342,0
JsText.TrimEnd (well-formedness),Passed,00:00:00.0590986,149838,0
JsText.NatToStringInjective (correctness),Passed,00:00:00.0393622,103440,0
JsText.TrimStartEmptyIffBlank (correctness),Passed,00:00:00.0329781,58361,0
JsText.DigitCharInjective (well-formedness),Passed,00:00:00.0270694,7440,0
JsText.TrimEmptyIffBlank (correctness),Passed,00:00:00.0217654,40937,0
JsText.DigitCharInjective (correctness),Passed,00:00:00.0165269,12919,0
JsText.TrimIsEmpty (correctness),Passed,00:00:00.0156173,18991,0
JsText.TrimEndKeepsNonBlankHead (well-formedness),Passed,00:00:00.0145649,16233,0
JsText.TrimEndKeepsNonBlankHead (correctness),Passed,00:00:00.0140190,25171,0
JsText.IsBlank (well-formedness),Passed,00:00:00.0090485,12181,0
